// The sweep that resends requests whose response is overdue, and how old a request can get.
module Ageing {
  import opened Smpp
  import opened TransmitQueue
  import opened Transmitter
  import opened Session
  import opened Refinement
  import opened Binding
  import Awaiting
  import Numbering

  // ---------------------------------------------------------------- the walk over the map

  ghost predicate Rises(keys: seq<nat>) { forall i, j | 0 <= i < j < |keys| :: keys[i] < keys[j] }

  lemma RisesCons(k: nat, rest: seq<nat>)
    requires Rises(rest) && forall j | j in rest :: k < j
    ensures Rises([k] + rest)
  {
    forall i, j | 0 <= i < j < |rest| + 1 ensures ([k] + rest)[i] < ([k] + rest)[j] {
      assert ([k] + rest)[j] == rest[j - 1] && rest[j - 1] in rest;
    }
  }

  /** The walk visits every key of the map once, in rising order. */
  lemma {:induction false} AscendingVisitsAll(ks: set<nat>)
    ensures Rises(Ascending(ks))
    ensures forall k :: k in Ascending(ks) <==> k in ks
  {
    if ks != {} {
      var m := Least(ks);
      var rest := Ascending(ks - {m});
      AscendingVisitsAll(ks - {m});
      RisesCons(m, rest);
      assert Ascending(ks) == [m] + rest;
    }
  }

  // Every request filed has a number of its own, above the minimum.
  ghost predicate WellFiled(t: Transmitter) { Awaiting.Filing(t) && forall k | k in t.w4rQ :: k > SEQ_MIN }

  // The keys that have expired by the time the walk visits them.
  function Overdue(t: Transmitter, keys: seq<nat>): seq<nat>
    decreases |keys|
  {
    if keys == [] then []
    else (if t.Expired(keys[0]) then [keys[0]] else []) + Overdue(t.Visit(keys[0]), keys[1..])
  }

  function PdusAt(m: map<nat, Stamped>, keys: seq<nat>): seq<Pdu>
    requires forall k | k in keys :: k in m
  {
    seq(|keys|, i requires 0 <= i < |keys| => m[keys[i]].pdu)
  }

  function WirePdus(ws: seq<Sent>): seq<Pdu> {
    seq(|ws|, i requires 0 <= i < |ws| => ws[i].pdu)
  }

  function Erased(keys: seq<nat>): set<nat> { set k | k in keys }

  // One visit hands an expired request over unchanged, straight to the wire if the queue is empty, and takes it
  // off the map; a visit to any other changes nothing.
  lemma VisitOne(t: Transmitter, k: nat)
    requires WellFiled(t)
    ensures var u := t.Visit(k);
            && WellFiled(u) && t.now <= u.now && u.txQ.Empty() == t.txQ.Empty()
            && if t.Expired(k) then
                 var p := t.w4rQ[k].pdu;
                 && u.w4rQ == t.w4rQ - {k} && u.accepted == t.accepted + [Tagged(p, MESSAGE)]
                 && WirePdus(u.wire) == WirePdus(t.wire) + (if t.txQ.Empty() then [p] else [])
                 && u.txQ.message == t.txQ.message + (if t.txQ.Empty() then [] else [p])
                 && u.txQ.session == t.txQ.session && u.txQ.response == t.txQ.response
               else u == t
  {
    if t.Expired(k) {
      var p, u := t.w4rQ[k].pdu, t.Visit(k);
      HandOverFrame(t, p, MESSAGE);
      if t.txQ.Empty() {
        assert u.wire == t.wire + [u.wire[|t.wire|]] && u.wire[|t.wire|].pdu == p;
      }
    }
  }

  // The outcome u of a sweep of t that handed over the requests numbered as in over: once each, in that order, as
  // they were, all to the wire or all to the queue; the others keep their place and their time.
  ghost predicate Swept(t: Transmitter, u: Transmitter, over: seq<nat>) {
    && (forall k | k in over :: k in t.w4rQ)
    && u.w4rQ == t.w4rQ - Erased(over)
    && u.accepted == t.accepted + Tag(PdusAt(t.w4rQ, over), MESSAGE)
    && u.txQ.Empty() == t.txQ.Empty()
    && WirePdus(u.wire) == WirePdus(t.wire) + (if t.txQ.Empty() then PdusAt(t.w4rQ, over) else [])
    && u.txQ.message == t.txQ.message + (if t.txQ.Empty() then [] else PdusAt(t.w4rQ, over))
    && u.txQ.session == t.txQ.session && u.txQ.response == t.txQ.response
  }

  lemma SweptNone(t: Transmitter)
    ensures Swept(t, t, [])
  {
  }

  lemma SweptOneMore(t: Transmitter, k: nat, u: Transmitter, over: seq<nat>)
    requires WellFiled(t) && t.Expired(k) && Swept(t.Visit(k), u, over) && k !in over
    ensures Swept(t, u, [k] + over)
  {
    hide Transmitter.Visit, WellFiled, PdusAt, Tag, WirePdus;
    var v, p := t.Visit(k), t.w4rQ[k].pdu;
    VisitOne(t, k);
    forall j | j in over ensures j in t.w4rQ && v.w4rQ[j] == t.w4rQ[j] {
      assert j in v.w4rQ;
    }
    assert Erased([k] + over) == {k} + Erased(over);
    PdusConsed(t.w4rQ, v.w4rQ, k, over);
    TagConsed(p, PdusAt(v.w4rQ, over));
  }

  lemma PdusConsed(m: map<nat, Stamped>, rest: map<nat, Stamped>, k: nat, over: seq<nat>)
    requires k in m && forall j | j in over :: j in m && j in rest && rest[j] == m[j]
    ensures PdusAt(m, [k] + over) == [m[k].pdu] + PdusAt(rest, over)
  {
  }

  lemma TagConsed(p: Pdu, ps: seq<Pdu>)
    ensures Tag([p] + ps, MESSAGE) == [Tagged(p, MESSAGE)] + Tag(ps, MESSAGE)
  {
  }

  /** The sweep splits the map in two: the requests that have expired by the time they are visited, in rising order,
      are handed over; all that had expired when it began are among them. */
  lemma {:induction false} SweepPartitions(t: Transmitter, keys: seq<nat>)
    requires WellFiled(t) && Rises(keys) && forall k | k in keys :: k in t.w4rQ
    ensures var u, over := t.Sweep(keys), Overdue(t, keys);
            && Swept(t, u, over) && WellFiled(u) && t.now <= u.now
            && Rises(over) && (forall k | k in over :: k in keys)
            && (forall k | k in keys && t.Expired(k) :: k in over)
            && (forall k | k in over :: Seconds(u.now) - t.w4rQ[k].stamp >= MAX_AGE)
    decreases |keys|
  {
    hide Transmitter.Visit, Swept;
    if keys == [] {
      SweptNone(t);
    } else {
      var k, rest, v := keys[0], keys[1..], t.Visit(keys[0]);
      assert keys == [k] + rest;
      forall j | j in rest ensures k < j {
        var i :| 0 <= i < |rest| && rest[i] == j;
        assert keys[0] < keys[i + 1];
      }
      VisitOne(t, k);
      VisitKeepsLater(t, k, rest);
      SweepPartitions(v, rest);
      if t.Expired(k) {
        SweptOneMore(t, k, v.Sweep(rest), Overdue(v, rest));
        RisesCons(k, Overdue(v, rest));
      } else {
        assert Overdue(t, keys) == [] + Overdue(v, rest) == Overdue(v, rest);
      }
      LaterIsOlder(t.now, v.now);
      LaterIsOlder(v.now, v.Sweep(rest).now);
    }
  }

  lemma LaterIsOlder(a: nat, b: nat)
    requires a <= b
    ensures Seconds(a) <= Seconds(b)
  {
  }

  lemma VisitKeepsLater(t: Transmitter, k: nat, rest: seq<nat>)
    requires WellFiled(t) && k !in rest && forall j | j in rest :: j in t.w4rQ
    ensures var v := t.Visit(k); forall j | j in rest :: j in v.w4rQ && v.w4rQ[j] == t.w4rQ[j] && (t.Expired(j) ==> v.Expired(j))
  {
    var v := t.Visit(k);
    hide Transmitter.Visit;
    VisitOne(t, k);
    LaterIsOlder(t.now, v.now);
  }

  // ---------------------------------------------------------------- sweeps in runs

  lemma OrdinaryFiles(cfg: Config, backlog: seq<Pdu>, t: nat, es: seq<Event>)
    requires Legal(Init(cfg, backlog, t), es) && Numbering.Ordinary(cfg, backlog, t, es)
    ensures WellFiled(After(Init(cfg, backlog, t), es).tx)
  {
    hide Step;
    Awaiting.FilesOnlyRequests(cfg, backlog, t, es);
    Numbering.NumberStandsForOneRequest(cfg, backlog, t, es);
    var u := After(Init(cfg, backlog, t), es).tx;
    forall k | k in u.w4rQ ensures k > SEQ_MIN {
      assert Numbering.Used(u, u.w4rQ[k].pdu);
    }
  }

  // The requests a sweep of state s hands over.
  function Resends(s: Session): seq<nat> { Overdue(s.tx, Ascending(s.tx.w4rQ.Keys)) }

  lemma SweepEvent(s: Session)
    requires Enabled(s, AgeTimer(false)) && WellFiled(s.tx)
    ensures var u, over := Step(s, AgeTimer(false)).tx, Resends(s);
            && Swept(s.tx, u, over) && Rises(over)
            && (forall k | s.tx.Expired(k) :: k in over)
            && (forall k | k in over :: Seconds(u.now) - s.tx.w4rQ[k].stamp >= MAX_AGE)
  {
    hide Swept, Step, Transmitter.Visit;
    SweepStep(s);
    AscendingVisitsAll(s.tx.w4rQ.Keys);
    SweepPartitions(s.tx, Ascending(s.tx.w4rQ.Keys));
  }

  lemma SweepStep(s: Session)
    requires Enabled(s, AgeTimer(false))
    ensures Step(s, AgeTimer(false)).tx == s.tx.Sweep(Ascending(s.tx.w4rQ.Keys))
  {
    hide Transmitter.Visit;
  }

  /** In an ordinary run every sweep is such a partition of what awaited a response. */
  lemma {:induction false} EverySweepPartitions(cfg: Config, backlog: seq<Pdu>, t: nat, es: seq<Event>)
    requires Legal(Init(cfg, backlog, t), es) && Numbering.Ordinary(cfg, backlog, t, es)
    requires Enabled(After(Init(cfg, backlog, t), es), AgeTimer(false))
    ensures var s := After(Init(cfg, backlog, t), es);
            var u, over := Step(s, AgeTimer(false)).tx, Resends(s);
            && Swept(s.tx, u, over) && Rises(over)
            && (forall k | s.tx.Expired(k) :: k in over)
            && (forall k | k in over :: Seconds(u.now) - s.tx.w4rQ[k].stamp >= MAX_AGE)
  {
    hide Swept, Step, Resends;
    OrdinaryFiles(cfg, backlog, t, es);
    SweepEvent(After(Init(cfg, backlog, t), es));
  }

  // ---------------------------------------------------------------- how old a request gets

  // Every request filed dates from after second m - MAX_AGE, and so will those to come.
  ghost predicate Young(t: Transmitter, m: int) {
    m < Seconds(t.now) + MAX_AGE && forall k | k in t.w4rQ :: m < t.w4rQ[k].stamp + MAX_AGE
  }

  lemma ActAges(t: Transmitter, m: int, a: Action)
    requires Young(t, m) && Doable(t, a)
    ensures Young(Act(t, a), m) && t.now <= Act(t, a).now
  {
    hide Transmitter.DoWrite, Transmitter.WritePdu;
    match a
    case Accept(p, level) => HandOverFrame(t, p, level);
    case Issue(p, level) => HandOverFrame(t.DrawNumber(), p.(num := t.nextNum), level);
    case Look(k) => if t.Expired(k) { HandOverFrame(t, t.w4rQ[k].pdu, MESSAGE); }
    case Complete(i, _) => if !t.txQ.Empty() { WriteFrame(t.Filed(i)); }
    case _ =>
    LaterIsOlder(t.now, Act(t, a).now);
  }

  lemma {:induction false} ActionsAge(t: Transmitter, m: int, acts: seq<Action>)
    requires AllDoable(t, acts) && Young(t, m)
    ensures Young(Perform(t, acts), m) && t.now <= Perform(t, acts).now
  {
    hide Act, Doable, Young;
    if acts != [] {
      ActionsAge(t, m, acts[..|acts| - 1]);
      ActAges(Perform(t, acts[..|acts| - 1]), m, acts[|acts| - 1]);
    }
  }

  // While the timer is armed, what is filed dates from less than MAX_AGE before it was armed, but for the time slack
  // that a sweep may take.
  ghost predicate Aged(s: Session, slack: nat) {
    s.age.Some? ==>
      var armed := s.age.value - s.cfg.linkPeriod * SECOND;
      armed <= s.tx.now && Young(s.tx, (armed - slack) / SECOND)
  }

  lemma OnlySweepsArm(s: Session, e: Event)
    requires Enabled(s, e) && e != AgeTimer(false)
    ensures Step(s, e).age == if e.Close? then None else s.age
  {
    hide HandleBodyOk, Reacts;
    if e.BodyOk? {
      ReadingReacts(s, e.pdu, e.decodes);
    }
  }

  lemma SweepRejuvenates(s: Session, slack: nat)
    requires Enabled(s, AgeTimer(false)) && WellFiled(s.tx)
    requires Step(s, AgeTimer(false)).tx.now <= s.tx.now + slack
    ensures Aged(Step(s, AgeTimer(false)), slack)
  {
    hide Swept;
    var keys := Ascending(s.tx.w4rQ.Keys);
    AscendingVisitsAll(s.tx.w4rQ.Keys);
    SweepPartitions(s.tx, keys);
    var u := s.tx.Sweep(keys);
    if s.tx.w4rQ != map[] {
      var m := (u.now - slack) / SECOND;
      assert m <= Seconds(s.tx.now) by { FloorMonotone(u.now - slack, s.tx.now); }
      assert Seconds(s.tx.now) <= Seconds(u.now) by { LaterIsOlder(s.tx.now, u.now); }
      forall k | k in u.w4rQ ensures m < u.w4rQ[k].stamp + MAX_AGE {
        assert Swept(s.tx, u, Overdue(s.tx, keys));
        SweptKeeps(s.tx, u, Overdue(s.tx, keys), k);
        assert !s.tx.Expired(k);
      }
    }
  }

  lemma SweptKeeps(t: Transmitter, u: Transmitter, over: seq<nat>, k: nat)
    requires Swept(t, u, over) && k in u.w4rQ
    ensures k in t.w4rQ && u.w4rQ[k] == t.w4rQ[k] && k !in over
  {
  }

  lemma FloorMonotone(a: int, b: int)
    requires a <= b
    ensures a / SECOND <= b / SECOND
  {
  }

  lemma EventAges(s: Session, e: Event, slack: nat)
    requires Enabled(s, e) && WellFiled(s.tx) && Aged(s, slack)
    requires e == AgeTimer(false) ==> Step(s, e).tx.now <= s.tx.now + slack
    ensures Aged(Step(s, e), slack)
  {
    hide Step, Actions, Young;
    if e == AgeTimer(false) {
      SweepRejuvenates(s, slack);
    } else {
      OnlySweepsArm(s, e);
      TransmissionRefines(s, e);
      if s.age.Some? {
        ActionsAge(s.tx, (s.age.value - s.cfg.linkPeriod * SECOND - slack) / SECOND, Actions(s, e));
      }
    }
  }

  ghost predicate QuickSweeps(s: Session, es: seq<Event>, slack: nat)
    requires Legal(s, es)
  {
    forall k | 0 <= k < |es| && es[k] == AgeTimer(false) :: At(s, es, k + 1).tx.now <= At(s, es, k).tx.now + slack
  }

  lemma {:induction false} RunAges(cfg: Config, backlog: seq<Pdu>, t: nat, es: seq<Event>, slack: nat)
    requires Legal(Init(cfg, backlog, t), es) && Numbering.Ordinary(cfg, backlog, t, es)
    requires QuickSweeps(Init(cfg, backlog, t), es, slack)
    ensures Aged(After(Init(cfg, backlog, t), es), slack) && After(Init(cfg, backlog, t), es).cfg == cfg
  {
    hide Step, WellFiled, Numbering.Ordinary, Aged;
    var init := Init(cfg, backlog, t);
    if es == [] {
      assert Aged(init, slack) by { StartAged(cfg, backlog, t, slack); }
    } else {
      var before, last := es[..|es| - 1], |es| - 1;
      Numbering.OrdinaryBefore(cfg, backlog, t, es);
      forall k | 0 <= k <= |before| ensures At(init, before, k) == At(init, es, k) {
        assert before[..k] == es[..k];
      }
      RunAges(cfg, backlog, t, before, slack);
      OrdinaryFiles(cfg, backlog, t, before);
      AtStep(init, es, last);
      assert At(init, es, last) == After(init, before);
      EventAges(After(init, before), es[last], slack);
      TransmissionRefines(After(init, before), es[last]);
    }
  }

  lemma StartAged(cfg: Config, backlog: seq<Pdu>, t: nat, slack: nat)
    ensures Aged(Init(cfg, backlog, t), slack)
  {
    FloorMonotone(t - slack, t);
  }

  /** In an ordinary run, while the ageing timer is armed, no request has been awaiting a response for MAX_AGE seconds
      and one period or more, but for the time a sweep itself may take and the time the timer is late. */
  lemma NoRequestGrowsOld(cfg: Config, backlog: seq<Pdu>, t: nat, es: seq<Event>, slack: nat, late: nat, k: nat)
    requires Legal(Init(cfg, backlog, t), es) && Numbering.Ordinary(cfg, backlog, t, es)
    requires QuickSweeps(Init(cfg, backlog, t), es, slack)
    requires var s := After(Init(cfg, backlog, t), es); s.age.Some? && s.tx.now <= s.age.value + late && k in s.tx.w4rQ
    ensures var s := After(Init(cfg, backlog, t), es);
            Seconds(s.tx.now) - s.tx.w4rQ[k].stamp < MAX_AGE + cfg.linkPeriod + (slack + late + SECOND - 1) / SECOND
  {
    hide Step;
    RunAges(cfg, backlog, t, es, slack);
    var s := After(Init(cfg, backlog, t), es);
    Rounding(s.age.value - cfg.linkPeriod * SECOND, s.tx.now, slack, late, cfg.linkPeriod);
  }

  lemma Rounding(armed: int, now: nat, slack: nat, late: nat, period: nat)
    requires now <= armed + period * SECOND + late
    ensures now / SECOND - (armed - slack) / SECOND <= period + (slack + late + SECOND - 1) / SECOND
  {
  }

  // ---------------------------------------------------------------- when the sweeps end

  // What turns the ageing timer off: a close, and a sweep that finds nothing awaiting.
  predicate EndsAgeing(s: Session, e: Event) { e.Close? || (e == AgeTimer(false) && s.tx.w4rQ == map[]) }

  lemma AgeingStep(s: Session, e: Event)
    requires Enabled(s, e)
    ensures Step(s, e).age.Some? <==> s.age.Some? && !EndsAgeing(s, e)
  {
    hide Step;
    if e == AgeTimer(false) {
      SweepArms(s);
    } else {
      OnlySweepsArm(s, e);
    }
  }

  lemma SweepArms(s: Session)
    requires Enabled(s, AgeTimer(false))
    ensures Step(s, AgeTimer(false)).age.Some? <==> s.tx.w4rQ != map[]
  {
  }

  /** The ageing timer is armed at the end of a run exactly if in all of it there was no close and no sweep that found
      nothing: it is never armed again by a new connection. */
  lemma {:induction false} AgeingGoesOnIff(cfg: Config, backlog: seq<Pdu>, t: nat, es: seq<Event>)
    requires Legal(Init(cfg, backlog, t), es)
    ensures var init := Init(cfg, backlog, t);
            After(init, es).age.Some? <==> forall k | 0 <= k < |es| :: !EndsAgeing(At(init, es, k), es[k])
  {
    hide Step, EndsAgeing;
    var init := Init(cfg, backlog, t);
    if es != [] {
      var before, last := es[..|es| - 1], |es| - 1;
      AgeingGoesOnIff(cfg, backlog, t, before);
      forall k | 0 <= k <= last ensures At(init, before, k) == At(init, es, k) {
        assert before[..k] == es[..k];
      }
      AtEnds(init, before);
      AgeingStep(After(init, before), es[last]);
      if After(init, before).age.Some? && !EndsAgeing(After(init, before), es[last]) {
        forall k | 0 <= k < |es| ensures !EndsAgeing(At(init, es, k), es[k]) {
          if k < last {
            assert !EndsAgeing(At(init, before, k), before[k]);
          }
        }
      } else if After(init, before).age.None? {
        var k :| 0 <= k < last && EndsAgeing(At(init, before, k), before[k]);
        assert EndsAgeing(At(init, es, k), es[k]);
      } else {
        assert EndsAgeing(At(init, es, last), es[last]);
      }
    }
  }

  // The next sweep is not due before this.
  predicate NotDueBefore(s: Session, due: nat) { (s.age.Some? ==> s.age.value >= due) && s.tx.now + s.cfg.linkPeriod * 1_000_000 >= due }

  lemma ClockGoesOn(s: Session, e: Event)
    requires Enabled(s, e)
    ensures Step(s, e).tx.now >= s.tx.now && Step(s, e).cfg == s.cfg
  {
    hide Step, Actions, Act, Doable;
    TransmissionRefines(s, e);
    var inv := (u: Transmitter) => u.now >= s.tx.now;
    forall u, a: Action | inv(u) && Doable(u, a) ensures inv(Act(u, a)) {
      ActWaits(u, a);
    }
    KeptByActions(inv, _ => true, s.tx, Actions(s, e));
  }

  lemma ActWaits(t: Transmitter, a: Action)
    requires Doable(t, a)
    ensures t.now <= Act(t, a).now
  {
    hide Transmitter.DoWrite, Transmitter.WritePdu;
    match a
    case Accept(p, level) => HandOverFrame(t, p, level);
    case Issue(p, level) => HandOverFrame(t.DrawNumber(), p.(num := t.nextNum), level);
    case Look(k) => if t.Expired(k) { HandOverFrame(t, t.w4rQ[k].pdu, MESSAGE); }
    case Complete(i, _) => if !t.txQ.Empty() { WriteFrame(t.Filed(i)); }
    case _ =>
  }

  lemma SweepSetsTimer(s: Session)
    requires Enabled(s, AgeTimer(false))
    ensures var u := Step(s, AgeTimer(false)); u.age.Some? ==> u.age.value == u.tx.now + s.cfg.linkPeriod * 1_000_000
  {
    hide Transmitter.Sweep;
  }

  lemma NotDueStep(s: Session, e: Event, due: nat)
    requires Enabled(s, e) && NotDueBefore(s, due)
    ensures NotDueBefore(Step(s, e), due)
  {
    hide Step;
    ClockGoesOn(s, e);
    if e == AgeTimer(false) {
      SweepSetsTimer(s);
    } else {
      OnlySweepsArm(s, e);
    }
  }

  lemma {:induction false} NotDueRun(s: Session, es: seq<Event>, j: nat, k: nat, due: nat)
    requires Legal(s, es) && j <= k <= |es| && NotDueBefore(At(s, es, j), due)
    ensures NotDueBefore(At(s, es, k), due)
  {
    hide Step, NotDueBefore;
    if j < k {
      NotDueRun(s, es, j, k - 1, due);
      AtStep(s, es, k - 1);
      NotDueStep(At(s, es, k - 1), es[k - 1], due);
    }
  }

  /** In every run a sweep starts no sooner than one period after the last one ended, and the first no sooner than one
      period after the start. */
  lemma {:induction false} SweepsApart(cfg: Config, backlog: seq<Pdu>, t: nat, es: seq<Event>, k: nat)
    requires Legal(Init(cfg, backlog, t), es) && k < |es| && es[k] == AgeTimer(false)
    ensures var init := Init(cfg, backlog, t); var now := At(init, es, k).tx.now;
            && now >= t + cfg.linkPeriod * 1_000_000
            && forall j | 0 <= j < k && es[j] == AgeTimer(false) :: now >= At(init, es, j + 1).tx.now + cfg.linkPeriod * 1_000_000
  {
    hide Step;
    var init, period := Init(cfg, backlog, t), cfg.linkPeriod * 1_000_000;
    AtStep(init, es, k);
    AtEnds(init, es);
    NotDueRun(init, es, 0, k, t + period);
    forall j | 0 <= j < k && es[j] == AgeTimer(false) ensures At(init, es, k).tx.now >= At(init, es, j + 1).tx.now + period {
      AtStep(init, es, j);
      SweepSetsTimer(At(init, es, j));
      ConfigAt(cfg, backlog, t, es, j);
      ClockGoesOn(At(init, es, j), es[j]);
      NotDueRun(init, es, j + 1, k, At(init, es, j + 1).tx.now + period);
    }
  }

  lemma {:induction false} ConfigAt(cfg: Config, backlog: seq<Pdu>, t: nat, es: seq<Event>, k: nat)
    requires Legal(Init(cfg, backlog, t), es) && k <= |es|
    ensures At(Init(cfg, backlog, t), es, k).cfg == cfg
  {
    hide Step;
    var init := Init(cfg, backlog, t);
    AtEnds(init, es);
    if k > 0 {
      ConfigAt(cfg, backlog, t, es, k - 1);
      AtStep(init, es, k - 1);
      ClockGoesOn(At(init, es, k - 1), es[k - 1]);
    }
  }

  lemma NoResending(s: Session, e: Event)
    requires Enabled(s, e) && s.age.None?
    ensures Step(s, e).age.None?
    ensures forall n | Resent(n) in Step(s, e).tx.acks :: Resent(n) in s.tx.acks
  {
    hide Step, Actions;
    assert e != AgeTimer(false);
    OnlySweepsArm(s, e);
    TransmissionRefines(s, e);
    NoLooks(s, e);
    LookingResends(s.tx, Actions(s, e));
  }

  /** Once the timer is off it stays off, and no overdue request is ever resent. */
  lemma {:induction false} AgeingDoesNotRestart(s: Session, es: seq<Event>)
    requires Legal(s, es) && s.age.None?
    ensures After(s, es).age.None?
    ensures forall n | Resent(n) in After(s, es).tx.acks :: Resent(n) in s.tx.acks
  {
    hide Step;
    if es != [] {
      AgeingDoesNotRestart(s, es[..|es| - 1]);
      NoResending(After(s, es[..|es| - 1]), es[|es| - 1]);
    }
  }

  /** So the first close of a run, or the first sweep that finds nothing, ends all resending. */
  lemma {:induction false} NothingResentAfter(cfg: Config, backlog: seq<Pdu>, t: nat, es: seq<Event>, j: nat, k: nat)
    requires Legal(Init(cfg, backlog, t), es) && j < k <= |es| && EndsAgeing(At(Init(cfg, backlog, t), es, j), es[j])
    ensures var init := Init(cfg, backlog, t);
            && At(init, es, k).age.None?
            && forall n | Resent(n) in At(init, es, k).tx.acks :: Resent(n) in At(init, es, j + 1).tx.acks
  {
    hide Step, EndsAgeing;
    var init := Init(cfg, backlog, t);
    AtStep(init, es, k - 1);
    if k == j + 1 {
      AgeingStep(At(init, es, j), es[j]);
    } else {
      NothingResentAfter(cfg, backlog, t, es, j, k - 1);
      NoResending(At(init, es, k - 1), es[k - 1]);
    }
  }

  /** Any bound session comes to that by losing its connection: it connects again, and ages nothing from then on. */
  lemma LostConnectionEndsAgeing(s: Session)
    requires Ready(s)
    ensures var es := [ReadError(HeaderRead, true), Close];
            && Legal(s, es) && EndsAgeing(At(s, es, 1), es[1])
            && After(s, es).age.None? && After(s, es).ctl.connects == 1
  {
    var es := [ReadError(HeaderRead, true), Close];
    LegalPair(s, es[0], es[1]);
    assert es[..1] == [es[0]] && es[..1][..0] == [];
  }

  lemma NoLooks(s: Session, e: Event)
    requires Enabled(s, e) && e != AgeTimer(false)
    ensures forall a | a in Actions(s, e) :: !a.Look?
  {
    hide Reacts;
  }

  lemma {:induction false} LookingResends(t: Transmitter, acts: seq<Action>)
    requires AllDoable(t, acts) && forall a | a in acts :: !a.Look?
    ensures forall n | Resent(n) in Perform(t, acts).acks :: Resent(n) in t.acks
  {
    hide Act, Doable;
    if acts != [] {
      LookingResends(t, acts[..|acts| - 1]);
      NotLooking(Perform(t, acts[..|acts| - 1]), acts[|acts| - 1]);
    }
  }

  lemma NotLooking(t: Transmitter, a: Action)
    requires Doable(t, a) && !a.Look?
    ensures forall n | Resent(n) in Act(t, a).acks :: Resent(n) in t.acks
  {
    hide Transmitter.DoWrite, Transmitter.WritePdu;
    match a
    case Accept(p, level) => HandOverFrame(t, p, level);
    case Issue(p, level) => HandOverFrame(t.DrawNumber(), p.(num := t.nextNum), level);
    case Complete(i, _) => if !t.txQ.Empty() { WriteFrame(t.Filed(i)); }
    case _ =>
  }
}

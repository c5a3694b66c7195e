// The link test: a message centre that falls silent is noticed in time.
module Silence {
  import opened Smpp
  import opened TransmitQueue
  import opened Transmitter
  import opened Session
  import opened Refinement
  import Throttle

  // ---------------------------------------------------------------- the two timers

  predicate OneTimer(s: Session) { s.link.None? || s.resp.None? }

  // What an event does to the two timers.
  lemma TimersStep(s: Session, e: Event)
    requires Enabled(s, e)
    ensures var u := Step(s, e);
            if e.BodyOk? then
              u.link == Some(s.tx.now + s.cfg.linkPeriod * SECOND) && u.resp.None?
            else if e.Close? then
              u.link.None? && u.resp.None?
            else if e == LinkTimer(false) then
              u.link.None? && u.resp == Some(u.tx.now + s.cfg.linkTimeout * SECOND)
            else if e == RespTimer(false) then
              u.link == s.link && u.resp.None?
            else
              u.link == s.link && u.resp == s.resp
  {
    if e.BodyOk? {
      hide HandleBodyOk, Reacts;
      ReadingReacts(s, e.pdu, e.decodes);
      ReactionTimers(ReadyToReact(s, e.pdu, e.decodes), e.pdu, Reacts(s.ctl.state, e.pdu, e.decodes));
    } else {
      hide HandleBodyOk, Transmitter.DoWrite, Transmitter.DoWriteNumbered, Transmitter.WriteOk, Transmitter.WriteError, Transmitter.Sweep;
    }
  }

  lemma ReactionTimers(s: Session, p: Pdu, r: Reaction)
    ensures Apply(s, p, r).link == s.link && (s.resp.None? ==> Apply(s, p, r).resp.None?)
  {
  }

  /** Never are both link timers armed. */
  lemma {:induction false} NeverBothTimers(cfg: Config, backlog: seq<Pdu>, t: nat, es: seq<Event>)
    requires Legal(Init(cfg, backlog, t), es)
    ensures OneTimer(After(Init(cfg, backlog, t), es))
  {
    hide Step;
    if es != [] {
      var s := After(Init(cfg, backlog, t), es[..|es| - 1]);
      NeverBothTimers(cfg, backlog, t, es[..|es| - 1]);
      TimersStep(s, es[|es| - 1]);
    }
  }

  // ---------------------------------------------------------------- the watch

  // By when the response to the link test of a session that last heard of the message centre at time t is due.
  function ResponseDue(s: Session, t: nat, late: nat): nat {
    t + (s.cfg.linkPeriod + s.cfg.linkTimeout) * SECOND + s.tx.interval + late
  }

  // Since time t nothing has been heard and no close asked for, and the watch is kept.
  predicate Watching(s: Session, t: nat, late: nat) {
    && !s.ctl.stop && s.ctl.closes == 0
    && ((s.link == Some(t + s.cfg.linkPeriod * SECOND) && s.resp.None?)
        || (s.link.None? && s.resp.Some? && s.resp.value <= ResponseDue(s, t, late)))
  }

  // No link timer is overdue by more than this: the event loop gets to it in time.
  predicate Prompt(s: Session, late: nat) {
    (s.link.Some? ==> s.tx.now <= s.link.value + late) && (s.resp.Some? ==> s.tx.now <= s.resp.value + late)
  }

  // No link test is written later than one interval after it is due.
  lemma TestWaitsOneInterval(t: Transmitter, p: Pdu)
    requires t.throttleNext <= t.now + t.interval
    ensures t.DoWriteNumbered(p, SESSION).now <= t.now + t.interval
  {
  }

  lemma WatchControl(c: Control, e: Event)
    requires Possible(c, e) && !c.stop && c.closes == 0 && !e.BodyOk? && !e.StopCall?
    ensures ControlStep(c, e).posts > c.posts || (!ControlStep(c, e).stop && ControlStep(c, e).closes == 0)
    ensures e == RespTimer(false) ==> ControlStep(c, e).posts > c.posts
  {
  }

  lemma PostsGrow(c: Control, e: Event)
    requires Possible(c, e)
    ensures ControlStep(c, e).posts >= c.posts
  {
  }

  lemma WatchStep(s: Session, e: Event, t: nat, late: nat)
    requires Enabled(s, e) && Watching(s, t, late) && Prompt(s, late) && Throttle.OnTime(s.tx)
    requires !e.BodyOk? && !e.StopCall?
    ensures Step(s, e).ctl.posts > s.ctl.posts || Watching(Step(s, e), t, late)
    ensures Step(s, e).cfg == s.cfg && Step(s, e).tx.interval == s.tx.interval && Throttle.OnTime(Step(s, e).tx)
  {
    hide Step, Actions, Throttle.Paced;
    ControlRefines(s, e);
    WatchControl(s.ctl, e);
    TimersStep(s, e);
    EventOnTime(s, e);
    if e == LinkTimer(false) {
      TestWaitsOneInterval(s.tx, LINK_TEST);
      LinkTimerTime(s);
    }
  }

  lemma LinkTimerTime(s: Session)
    requires Enabled(s, LinkTimer(false))
    ensures Step(s, LinkTimer(false)).tx == s.tx.DoWriteNumbered(LINK_TEST, SESSION)
  {
  }

  lemma EventOnTime(s: Session, e: Event)
    requires Enabled(s, e) && Throttle.OnTime(s.tx)
    ensures Throttle.OnTime(Step(s, e).tx) && Step(s, e).tx.interval == s.tx.interval && Step(s, e).cfg == s.cfg
  {
    hide Step, Actions, Act, Throttle.OnTime;
    TransmissionRefines(s, e);
    var inv := (u: Transmitter) => Throttle.OnTime(u) && u.interval == s.tx.interval;
    forall u, a: Action | inv(u) && Doable(u, a) ensures inv(Act(u, a)) {
      Throttle.ActOnTime(u, a);
    }
    KeptByActions(inv, _ => true, s.tx, Actions(s, e));
  }

  lemma {:induction false} WatchRun(s: Session, es: seq<Event>, t: nat, late: nat)
    requires Legal(s, es) && Watching(s, t, late) && Throttle.OnTime(s.tx)
    requires forall e | e in es :: !e.BodyOk? && !e.StopCall?
    requires forall k | 0 <= k < |es| :: Prompt(At(s, es, k), late)
    ensures var u := After(s, es);
            && (u.ctl.posts > s.ctl.posts || Watching(u, t, late))
            && u.ctl.posts >= s.ctl.posts && u.cfg == s.cfg && u.tx.interval == s.tx.interval && Throttle.OnTime(u.tx)
  {
    hide Step, Watching, Throttle.OnTime, Prompt;
    if es != [] {
      var before, last := es[..|es| - 1], |es| - 1;
      forall k | 0 <= k <= |before| ensures At(s, before, k) == At(s, es, k) {
        assert before[..k] == es[..k];
      }
      WatchRun(s, before, t, late);
      var u := After(s, before);
      AtStep(s, es, last);
      assert At(s, es, last) == u && es[last] in es;
      EventOnTime(u, es[last]);
      ControlRefines(u, es[last]);
      PostsGrow(u.ctl, es[last]);
      if u.ctl.posts == s.ctl.posts {
        WatchStep(u, es[last], t, late);
      }
    }
  }

  /** A message centre that falls silent is noticed. Take any run, and a PDU that is read in it and that does not
      itself make the session close. Whatever follows but another PDU or a stop, once the clock has passed the PDU's
      time by more than the enquire link period, the response timeout and one throttle interval, a close has been
      asked for. What holds up the event loop, if anything, adds up: a timer may run that much late, twice. */
  lemma {:induction false} SilenceIsNoticed(cfg: Config, backlog: seq<Pdu>, start: nat, es: seq<Event>, p: Pdu, decodes: bool, fs: seq<Event>,
                         late: nat)
    requires Legal(Init(cfg, backlog, start), es) && Enabled(After(Init(cfg, backlog, start), es), BodyOk(p, decodes))
    requires var s := Step(After(Init(cfg, backlog, start), es), BodyOk(p, decodes));
             && !s.ctl.stop && s.ctl.closes == 0 && Legal(s, fs)
             && forall k | 0 <= k <= |fs| :: Prompt(At(s, fs, k), late)
    requires forall e | e in fs :: !e.BodyOk? && !e.StopCall?
    ensures var s0 := After(Init(cfg, backlog, start), es);
            var s := Step(s0, BodyOk(p, decodes));
            After(s, fs).tx.now > s0.tx.now + (cfg.linkPeriod + cfg.linkTimeout) * SECOND + cfg.Interval() + 2 * late ==>
              After(s, fs).ctl.posts > s.ctl.posts
  {
    hide Step, Throttle.OnTime;
    Throttle.OnTimeRun(cfg, backlog, start, es);
    ConfigKept(cfg, backlog, start, es);
    var s0 := After(Init(cfg, backlog, start), es);
    var s := Step(s0, BodyOk(p, decodes));
    TimersStep(s0, BodyOk(p, decodes));
    EventOnTime(s0, BodyOk(p, decodes));
    WatchRun(s, fs, s0.tx.now, late);
    AtEnds(s, fs);
    assert Prompt(At(s, fs, |fs|), late);
  }

  lemma {:induction false} ConfigKept(cfg: Config, backlog: seq<Pdu>, t: nat, es: seq<Event>)
    requires Legal(Init(cfg, backlog, t), es)
    ensures After(Init(cfg, backlog, t), es).cfg == cfg
  {
    hide Step;
    if es != [] {
      ConfigKept(cfg, backlog, t, es[..|es| - 1]);
      TransmissionRefines(After(Init(cfg, backlog, t), es[..|es| - 1]), es[|es| - 1]);
    }
  }

  /** But only a PDU sets the watch. With both timers off, as they are at the start and after every close, a session whose
      message centre never says anything is never tested: until a PDU is read neither timer is armed nor expires. */
  lemma {:induction false} UnheardIsUntested(s: Session, es: seq<Event>)
    requires Legal(s, es) && s.link.None? && s.resp.None? && forall e | e in es :: !e.BodyOk?
    ensures After(s, es).link.None? && After(s, es).resp.None?
    ensures forall e | e in es :: e != LinkTimer(false) && e != RespTimer(false)
  {
    hide Step;
    if es != [] {
      var before, e := es[..|es| - 1], es[|es| - 1];
      UnheardIsUntested(s, before);
      TimersStep(After(s, before), e);
      assert e in es && forall d | d in es :: d in before || d == e;
    }
  }
}

// The three-level transmit queue (transmit_queue.hpp).
module TransmitQueue {
  import opened Smpp

  datatype Level = SESSION | RESPONSE | MESSAGE

  datatype Tagged = Tagged(pdu: Pdu, level: Level)

  function Tag(ps: seq<Pdu>, level: Level): seq<Tagged> {
    seq(|ps|, i requires 0 <= i < |ps| => Tagged(ps[i], level))
  }

  /** The queue's contents: one first-in first-out line for each level, and the PDU popped last. */
  datatype TxQ = TxQ(session: seq<Pdu>, response: seq<Pdu>, message: seq<Pdu>, lastPop: Option<Tagged>) {

    predicate Empty() { session == [] && response == [] && message == [] }

    function Size(): nat { |session| + |response| + |message| }

    // Everything queued, in the order in which pops hand it out.
    function Order(): seq<Tagged> {
      Tag(session, SESSION) + Tag(response, RESPONSE) + Tag(message, MESSAGE)
    }

    function Push(p: Pdu, level: Level): (q: TxQ)
      ensures !q.Empty()
    {
      match level
      case SESSION => this.(session := session + [p])
      case RESPONSE => this.(response := response + [p])
      case MESSAGE => this.(message := message + [p])
    }

    // The next PDU to pop: the oldest of the first level that is not empty.
    function Front(): Tagged
      requires !Empty()
    {
      if session != [] then Tagged(session[0], SESSION)
      else if response != [] then Tagged(response[0], RESPONSE)
      else Tagged(message[0], MESSAGE)
    }

    // The queue after that pop, when the popped PDU is left with sequence number n.
    function PopAs(n: nat): TxQ
      requires !Empty()
    {
      var t := Front();
      var last := Some(t.(pdu := t.pdu.(num := n)));
      match t.level
      case SESSION => this.(session := session[1..], lastPop := last)
      case RESPONSE => this.(response := response[1..], lastPop := last)
      case MESSAGE => this.(message := message[1..], lastPop := last)
    }

    function PutBack(t: Tagged): TxQ {
      match t.level
      case SESSION => this.(session := [t.pdu] + session)
      case RESPONSE => this.(response := [t.pdu] + response)
      case MESSAGE => this.(message := [t.pdu] + message)
    }

    function PushBackLastPop(): TxQ {
      if lastPop.Some? then PutBack(lastPop.value) else this
    }

    // What waits at one level.
    function Line(level: Level): seq<Pdu> {
      match level case SESSION => session case RESPONSE => response case MESSAGE => message
    }

    function ClearSessionQueues(): TxQ { this.(session := [], response := []) }
  }

  /** A pop takes the head of the pop order and leaves the rest of it as it was. */
  lemma PopTakesFirst(q: TxQ, n: nat)
    requires !q.Empty()
    ensures |q.Order()| == q.Size() > 0
    ensures q.Front() == q.Order()[0] && q.PopAs(n).Order() == q.Order()[1..]
  {
    var q' := q.PopAs(n);
    assert q'.Size() == q.Size() - 1;
    forall i | 0 <= i < q'.Size() ensures q'.Order()[i] == q.Order()[1..][i] {
    }
    assert q'.Order() == q.Order()[1..];
  }

  /** A push lands behind everything of its own and of more urgent levels, ahead of everything less urgent. */
  lemma PushKeepsOrder(q: TxQ, p: Pdu, level: Level)
    ensures var k := match level case SESSION => |q.session| case RESPONSE => |q.session| + |q.response| case MESSAGE => q.Size();
            q.Push(p, level).Order() == q.Order()[..k] + [Tagged(p, level)] + q.Order()[k..]
  {
  }

  /** Putting back what was just popped undoes the pop: the PDU is first in line again, with the number it was given. */
  lemma PushBackUndoesPop(q: TxQ, n: nat)
    requires !q.Empty()
    ensures var f := q.Front();
            q.PopAs(n).PushBackLastPop().Order() == [f.(pdu := f.pdu.(num := n))] + q.Order()[1..]
  {
    var f, r := q.Front(), q.PopAs(n).PushBackLastPop();
    var head := f.(pdu := f.pdu.(num := n));
    PopTakesFirst(r, n);
    PopTakesFirst(q, n);
    assert r.PopAs(n).Order() == q.PopAs(n).Order();
    assert r.Order() == [r.Front()] + r.Order()[1..];
  }

  class TransmitQ {
    var session: seq<Pdu>
    var response: seq<Pdu>
    var message: seq<Pdu>
    var lastPop: Option<Tagged>

    function Value(): TxQ
      reads this
    {
      TxQ(session, response, message, lastPop)
    }

    // What the pages on disk held of the two session levels is cleared; messages survive a restart.
    constructor (stored: TxQ)
      ensures Value() == TxQ([], [], stored.message, None)
    {
      session, response, message, lastPop := stored.session, stored.response, stored.message, None;
      new;
      ClearSessionQueues();
    }

    method ClearSessionQueues()
      modifies this
      ensures Value() == old(Value()).ClearSessionQueues()
    {
      session := [];
      response := [];
    }

    method Push(p: Pdu, level: Level)
      modifies this
      ensures Value() == old(Value()).Push(p, level)
    {
      match level
      case SESSION => session := session + [p];
      case RESPONSE => response := response + [p];
      case MESSAGE => message := message + [p];
    }

    method Pop() returns (t: Tagged)
      requires !Value().Empty()
      modifies this
      ensures t == old(Value()).Front()
      ensures Value() == old(Value()).PopAs(t.pdu.num)
    {
      if session != [] {
        t, session := Tagged(session[0], SESSION), session[1..];
      } else if response != [] {
        t, response := Tagged(response[0], RESPONSE), response[1..];
      } else {
        t, message := Tagged(message[0], MESSAGE), message[1..];
      }
      lastPop := Some(t);
    }

    // The popped PDU is shared with its caller: a number given to it there shows here too.
    method NumberLastPop(n: nat)
      requires lastPop.Some?
      modifies this`lastPop
      ensures lastPop == Some(old(lastPop).value.(pdu := old(lastPop).value.pdu.(num := n)))
    {
      lastPop := Some(lastPop.value.(pdu := lastPop.value.pdu.(num := n)));
    }

    method PushBackLastPop()
      modifies this
      ensures Value() == old(Value()).PushBackLastPop()
    {
      match lastPop
      case None =>
      case Some(Tagged(p, SESSION)) => session := [p] + session;
      case Some(Tagged(p, RESPONSE)) => response := [p] + response;
      case Some(Tagged(p, MESSAGE)) => message := [p] + message;
    }
  }
}

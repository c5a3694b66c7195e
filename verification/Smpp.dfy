// Protocol data units and the constants of SMPP v5.0 that the session engine looks at.
module Smpp {

  datatype Option<+T> = None | Some(value: T)

  newtype byte = x: int | 0 <= x < 256

  // Command ids, section 4.7.5 of SMPP v5.0. A response has the top bit of its request set.
  const RESPONSE_BIT: nat := 0x8000_0000
  const GENERIC_NACK: nat := 0x8000_0000
  const BIND_RECEIVER: nat := 0x0000_0001
  const BIND_TRANSMITTER: nat := 0x0000_0002
  const QUERY_SM: nat := 0x0000_0003
  const SUBMIT_SM: nat := 0x0000_0004
  const DELIVER_SM: nat := 0x0000_0005
  const UNBIND: nat := 0x0000_0006
  const REPLACE_SM: nat := 0x0000_0007
  const CANCEL_SM: nat := 0x0000_0008
  const BIND_TRANSCEIVER: nat := 0x0000_0009
  const OUTBIND: nat := 0x0000_000B
  const ENQUIRE_LINK: nat := 0x0000_0015
  const SUBMIT_MULTI: nat := 0x0000_0021
  const DATA_SM: nat := 0x0000_0103
  const BROADCAST_SM: nat := 0x0000_0111
  const QUERY_BROADCAST_SM: nat := 0x0000_0112
  const CANCEL_BROADCAST_SM: nat := 0x0000_0113
  const BIND_RECEIVER_RESP: nat := 0x8000_0001
  const BIND_TRANSMITTER_RESP: nat := 0x8000_0002
  const SUBMIT_SM_RESP: nat := 0x8000_0004
  const DELIVER_SM_RESP: nat := 0x8000_0005
  const UNBIND_RESP: nat := 0x8000_0006
  const BIND_TRANSCEIVER_RESP: nat := 0x8000_0009
  const ENQUIRE_LINK_RESP: nat := 0x8000_0015
  const DATA_SM_RESP: nat := 0x8000_0103

  const ESME_ROK: nat := 0

  // Sequence numbers, section 4.7.24.
  const SEQ_MIN: nat := 1
  const SEQ_MAX: nat := 0x7FFF_FFFF

  /** A PDU: the three header fields the engine reads, and a body it does not look into. */
  datatype Pdu = Pdu(id: nat, status: nat, num: nat, body: seq<byte>) {
    // The two tests the engine uses: what it files as awaiting a response, what it takes as a response.
    predicate IsRequest() { id < BIND_RECEIVER_RESP }
    predicate IsResponse() { id > GENERIC_NACK }

    // The same PDU with its sequence number forgotten.
    function Bare(): Pdu { this.(num := 0) }
  }

  // The answer the engine gives to a request of the message centre.
  function ResponseTo(p: Pdu): Pdu {
    Pdu(p.id + RESPONSE_BIT, ESME_ROK, p.num, if p.id == DELIVER_SM then [0] else [])
  }
}

/**
 The values that travel through the retransmission engine: operations, the
 completion handlers that carry them, queued write requests, waiters for
 replies, and the replies themselves.

 In the program a handler is a moved operation object with a tag such as
 `on_pubrec` and the packet it is sending; here it is an `Item`. One item
 stands for one operation at one moment, so "where an operation is" can be read
 off from the collection that holds its item.
 */
module Requests {

  const SERIAL_MODULUS: nat := 0x1_0000_0000
  const HALF_WINDOW: nat := 0x8000_0000
  const MAX_LIMIT: nat := 65535
  const MAX_PACKET_ID: nat := 65535

  /** What an operation is for. A `Disconnect` is terminal for its connection;
      `retry` tells the user's own disconnect, which is sent again, from the
      internal one, which is not. `Receive` is an inbound PUBLISH. */
  datatype Kind =
    | Qos0 | Qos1 | Qos2 | Subscribe
    | Disconnect(retry: bool)
    | OneShot
    | Receive(qos2: bool, msg: nat)
  {
    /** Owns a packet id of the client's allocator. */
    predicate Bearing() { Qos1? || Qos2? || Subscribe? }

    /** Counts against the broker's Receive Maximum. */
    predicate Metered() { Qos1? || Qos2? }

    predicate Publishes() { Qos0? || Qos1? || Qos2? }
  }

  /** `id` numbers the calls of the client; `seqno` numbers the publish calls
      (0 elsewhere), so `seqno % 2^32` is the operation's `_serial_num`. */
  datatype Op = Op(id: nat, kind: Kind, pid: nat, seqno: nat)

  /** The handler tags. */
  datatype Stage =
    | OnPublish | OnPuback | OnPubrec | OnPubrel | OnPubcomp
    | OnSubscribe | OnSuback
    | OnDisconnect | OnOneShot
    | OnRecPuback | OnRecPubrec | OnRecPubrel | OnRecPubcomp
  {
    /** The handler completes a write; otherwise it completes a wait for a reply. */
    predicate Writes() {
      OnPublish? || OnPubrel? || OnSubscribe? || OnDisconnect? || OnOneShot?
      || OnRecPuback? || OnRecPubrec? || OnRecPubcomp?
    }

    /** The operation has had its PUBREC accepted. */
    predicate Released() { OnPubrel? || OnPubcomp? }
  }

  datatype Item = Item(op: Op, stage: Stage, dup: bool)

  predicate StageFits(kind: Kind, stage: Stage) {
    match stage
    case OnPublish => kind.Publishes()
    case OnPuback => kind.Qos1?
    case OnPubrec => kind.Qos2?
    case OnPubrel => kind.Qos2?
    case OnPubcomp => kind.Qos2?
    case OnSubscribe => kind.Subscribe?
    case OnSuback => kind.Subscribe?
    case OnDisconnect => kind.Disconnect?
    case OnOneShot => kind.OneShot?
    case OnRecPuback => kind.Receive? && !kind.qos2
    case OnRecPubrec => kind.Receive? && kind.qos2
    case OnRecPubrel => kind.Receive? && kind.qos2
    case OnRecPubcomp => kind.Receive? && kind.qos2
  }

  /** A queued write. */
  datatype Request = Request(
    item: Item, serial: nat, throttled: bool, prioritized: bool, terminal: bool)

  /** Reply packets looked up by (code, packet id). */
  datatype Code = Puback | Pubrec | Pubcomp | Suback | Pubrel

  function AwaitedCode(stage: Stage): Code
    requires !stage.Writes()
  {
    match stage
    case OnPuback => Puback
    case OnPubrec => Pubrec
    case OnPubcomp => Pubcomp
    case OnSuback => Suback
    case OnRecPubrel => Pubrel
  }

  datatype Waiter = Waiter(code: Code, pid: nat, item: Item)

  /** What the client makes of a reply's bytes: undecodable or with a reason
      code its packet does not allow, a success code, or a failure code. */
  datatype Verdict = Malformed | Success | Failure

  /** A reply packet. `source` is the operation whose packet the broker was
      answering, `answers` the position of that packet in the run, and `readAt` the
      position at which the reply was read; no function of the client looks at any
      of them. */
  datatype Reply = Reply(code: Code, pid: nat, verdict: Verdict, source: nat, answers: nat, readAt: nat)

  datatype Outcome = TryAgain | Aborted | Got(reply: Reply)

  datatype Posted = Posted(item: Item, outcome: Outcome)
}

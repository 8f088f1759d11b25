/** The frontend client: request correlation and the event watermark (fomalhaut-sdk, client.ts). */
module Sdk {
  import opened Prelude
  import opened Frontend

  /** What reaches the transport subscription; a missing part is one of the wrong shape or unknown. */
  datatype Inbound = Junk | Message(protocol: int, sequence: Option<int>, event: Option<Event>)

  /** The parts of a snapshot result the client checks itself. */
  datatype Head = Head(mode: Mode, sequence: int)

  /** What the transport resolves a request to; a malformed snapshot is a result without a head. */
  datatype Reply = Lost | Malformed | Denied(protocol: int, id: int) | Granted(protocol: int, id: int, head: Option<Head>)

  /** What subscribers and callers see, and what the transport is asked, in order. */
  datatype Observation =
    | Delivered(envelope: Envelope)
    | Sent(id: nat)
    | Settled(id: nat, ok: bool)
    | Returned(sequence: nat)
    | Threw

  /** A request in flight; `snapshot` says that its caller is waiting for the state. */
  datatype Exchange = Exchange(id: nat, snapshot: bool)

  datatype Step =
    | Receive(value: Inbound)
    | Start(snapshot: bool)
    | Settle(reply: Reply)
    | Resume
    | Subscribe

  const PROTOCOL_VERSION := 1

  predicate SafeInteger(n: int) {
    0 - MAX_SAFE_INTEGER <= n <= MAX_SAFE_INTEGER
  }

  predicate ValidHead(head: Option<Head>) {
    head.Some? && SafeInteger(head.value.sequence) && head.value.sequence >= 0
  }

  /**
   * The abstract value of a `FomalhautClient`. A settled request frees the client at once, while
   * its caller takes the result only when it resumes, after whatever was queued before it.
   */
  datatype Client = Client(
    mode: Mode, last: nat, nextId: nat, inFlight: Option<Exchange>, resuming: seq<Option<Head>>,
    subscribed: bool, trace: seq<Observation>)
  {
    predicate Busy() {
      inFlight.Some?
    }

    /** An event passes if it is well formed, of this mode and newer than everything known. */
    predicate Passes(value: Inbound) {
      && value.Message? && value.protocol == PROTOCOL_VERSION
      && value.sequence.Some? && SafeInteger(value.sequence.value) && value.sequence.value > last
      && value.event.Some? && BelongsTo(mode, value.event.value)
    }

    function ReceiveEvent(value: Inbound): Client {
      if !Passes(value) then this
      else
        this.(last := value.sequence.value,
              trace := if subscribed then trace + [Delivered(Envelope(value.sequence.value, value.event.value))] else trace)
    }

    function StartExchange(snapshot: bool): Client {
      if Busy() || nextId > MAX_SAFE_INTEGER then
        this.(trace := trace + [Threw])
      else
        this.(nextId := nextId + 1, inFlight := Some(Exchange(nextId, snapshot)), trace := trace + [Sent(nextId)])
    }

    predicate Accepts(id: nat, reply: Reply) {
      reply.Granted? && reply.protocol == PROTOCOL_VERSION && reply.id == id
    }

    function SettleExchange(reply: Reply): Client {
      match inFlight
      case None => this
      case Some(Exchange(id, snapshot)) =>
        var ok := Accepts(id, reply);
        this.(inFlight := None, trace := trace + [Settled(id, ok)],
              resuming := if snapshot && ok then resuming + [reply.head] else resuming)
    }

    function ResumeCaller(): Client {
      if resuming == [] then this
      else
        var head, waiting := resuming[0], this.(resuming := resuming[1..]);
        if !ValidHead(head) || head.value.mode != mode then
          waiting.(trace := trace + [Threw])
        else
          waiting.(last := if head.value.sequence > last then head.value.sequence else last,
                   trace := trace + [Returned(head.value.sequence)])
    }

    function Apply(step: Step): Client {
      match step
      case Receive(value) => ReceiveEvent(value)
      case Start(snapshot) => StartExchange(snapshot)
      case Settle(reply) => SettleExchange(reply)
      case Resume => ResumeCaller()
      case Subscribe => this.(subscribed := true)
    }

    ghost predicate Inv(floor: nat) {
      && floor <= last
      && 2 <= nextId <= MAX_SAFE_INTEGER + 1
      && Rising(trace, floor, last)
      && Serial(trace, nextId, inFlight)
    }
  }

  /** A client whose first request was answered by this snapshot while these events were queued. */
  function Connect(head: Head, queued: seq<Inbound>): Client
    requires head.sequence >= 0
  {
    Replay(Client(head.mode, head.sequence, 2, None, [], false, []), queued)
  }

  function Replay(c: Client, queued: seq<Inbound>): Client
    decreases |queued|
  {
    if queued == [] then c else Replay(c, queued[..|queued| - 1]).ReceiveEvent(queued[|queued| - 1])
  }

  function Run(c: Client, steps: seq<Step>): Client
    decreases |steps|
  {
    if steps == [] then c else Run(c, steps[..|steps| - 1]).Apply(steps[|steps| - 1])
  }

  /**
   * Between `floor` and `last`, every delivered event is newer than all events delivered and all
   * snapshots returned before it.
   */
  ghost predicate Rising(trace: seq<Observation>, floor: nat, last: nat) {
    floor <= last &&
    (trace == [] ||
     match trace[|trace| - 1]
     case Delivered(envelope) => floor < envelope.sequence <= last && Rising(trace[..|trace| - 1], floor, envelope.sequence - 1)
     case Returned(sequence) => sequence <= last && Rising(trace[..|trace| - 1], floor, last)
     case _ => Rising(trace[..|trace| - 1], floor, last))
  }

  /** Requests carry the numbers from 2 on, and each is settled before the next one is sent. */
  ghost predicate Serial(trace: seq<Observation>, nextId: nat, inFlight: Option<Exchange>) {
    if trace == [] then nextId == 2 && inFlight.None?
    else
      match trace[|trace| - 1]
      case Sent(id) =>
        nextId == id + 1 && inFlight.Some? && inFlight.value.id == id && Serial(trace[..|trace| - 1], id, None)
      case Settled(id, _) =>
        nextId == id + 1 && inFlight.None?
        && exists snapshot :: Serial(trace[..|trace| - 1], nextId, Some(Exchange(id, snapshot)))
      case _ => Serial(trace[..|trace| - 1], nextId, inFlight)
  }

  lemma {:induction false} RisingWidens(trace: seq<Observation>, floor: nat, last: nat, wider: nat)
    requires Rising(trace, floor, last) && last <= wider
    ensures Rising(trace, floor, wider)
    decreases |trace|
  {
    if trace != [] && !trace[|trace| - 1].Delivered? {
      RisingWidens(trace[..|trace| - 1], floor, last, wider);
    }
  }

  lemma ReceiveKeeps(c: Client, floor: nat, value: Inbound)
    requires c.Inv(floor)
    ensures c.Apply(Receive(value)).Inv(floor)
  {
    var after := c.Apply(Receive(value));
    if c.Passes(value) {
      RisingWidens(c.trace, floor, c.last, value.sequence.value - 1);
      RisingWidens(c.trace, floor, c.last, value.sequence.value);
      if after.trace != c.trace {
        assert after.trace[..|after.trace| - 1] == c.trace;
      }
    }
  }

  lemma ApplyKeeps(c: Client, floor: nat, step: Step)
    requires c.Inv(floor)
    ensures c.Apply(step).Inv(floor) && c.Apply(step).mode == c.mode && c.trace <= c.Apply(step).trace
    ensures c.last <= c.Apply(step).last
  {
    var after := c.Apply(step);
    if after.trace != c.trace {
      assert after.trace[..|after.trace| - 1] == c.trace;
    }
    match step
    case Receive(value) => ReceiveKeeps(c, floor, value);
    case Resume => RisingWidens(c.trace, floor, c.last, after.last);
    case Settle(_) =>
      if c.inFlight.Some? {
        assert Serial(c.trace, c.nextId, Some(Exchange(c.inFlight.value.id, c.inFlight.value.snapshot)));
        InFlightIsNewest(c.trace, c.nextId, c.inFlight.value);
      }
    case Start(_) =>
    case Subscribe =>
  }

  lemma {:induction false} InFlightIsNewest(trace: seq<Observation>, nextId: nat, exchange: Exchange)
    requires Serial(trace, nextId, Some(exchange))
    ensures nextId == exchange.id + 1
    decreases |trace|
  {
    if trace != [] && !trace[|trace| - 1].Sent? && !trace[|trace| - 1].Settled? {
      InFlightIsNewest(trace[..|trace| - 1], nextId, exchange);
    }
  }

  lemma {:induction false} RunKeeps(c: Client, floor: nat, steps: seq<Step>)
    requires c.Inv(floor)
    ensures Run(c, steps).Inv(floor) && Run(c, steps).mode == c.mode && c.trace <= Run(c, steps).trace
    decreases |steps|
  {
    if steps != [] {
      RunKeeps(c, floor, steps[..|steps| - 1]);
      ApplyKeeps(Run(c, steps[..|steps| - 1]), floor, steps[|steps| - 1]);
    }
  }

  /** Events that arrive while the client is being connected reach nobody, though they raise the watermark. */
  lemma {:induction false} QueuedEventsReachNobody(c: Client, queued: seq<Inbound>, floor: nat)
    requires c.Inv(floor) && !c.subscribed
    ensures var after := Replay(c, queued);
      && after.Inv(floor) && after.trace == c.trace && c.last <= after.last
      && after == c.(last := after.last)
    decreases |queued|
  {
    if queued != [] {
      QueuedEventsReachNobody(c, queued[..|queued| - 1], floor);
      ApplyKeeps(Replay(c, queued[..|queued| - 1]), floor, Receive(queued[|queued| - 1]));
    }
  }

  /** Such an event exists: it is new, valid and of the client's mode, and yet nobody is told of it. */
  lemma QueuedEventIsLost()
    ensures var c := Connect(Head(LockerMode, 0), [Message(PROTOCOL_VERSION, Some(1), Some(LockAcquired))]);
      c.last == 1 && c.trace == []
  {
    var queued := [Message(PROTOCOL_VERSION, Some(1), Some(LockAcquired))];
    assert queued[..0] == [];
    assert Replay(Client(LockerMode, 0, 2, None, [], false, []), queued[..0])
        == Client(LockerMode, 0, 2, None, [], false, []);
  }

  lemma {:induction false} RisingOrders(trace: seq<Observation>, floor: nat, last: nat, j: nat)
    requires Rising(trace, floor, last) && j < |trace| && trace[j].Delivered?
    ensures floor < trace[j].envelope.sequence <= last
    ensures forall i :: 0 <= i < j && trace[i].Delivered? ==> trace[i].envelope.sequence < trace[j].envelope.sequence
    ensures forall i :: 0 <= i < j && trace[i].Returned? ==> trace[i].sequence < trace[j].envelope.sequence
    decreases |trace|
  {
    if j < |trace| - 1 {
      RisingOrders(trace[..|trace| - 1], floor,
                   if trace[|trace| - 1].Delivered? then trace[|trace| - 1].envelope.sequence - 1 else last, j);
    } else {
      RisingBelow(trace[..j], floor, trace[j].envelope.sequence - 1);
    }
  }

  lemma {:induction false} RisingBelow(trace: seq<Observation>, floor: nat, last: nat)
    requires Rising(trace, floor, last)
    ensures forall i :: 0 <= i < |trace| && trace[i].Delivered? ==> trace[i].envelope.sequence <= last
    ensures forall i :: 0 <= i < |trace| && trace[i].Returned? ==> trace[i].sequence <= last
    decreases |trace|
  {
    if trace != [] {
      RisingBelow(trace[..|trace| - 1], floor,
                  if trace[|trace| - 1].Delivered? then trace[|trace| - 1].envelope.sequence - 1 else last);
    }
  }

  lemma {:induction false} SerialOrders(trace: seq<Observation>, nextId: nat, inFlight: Option<Exchange>, j: nat)
    requires Serial(trace, nextId, inFlight) && j < |trace| && trace[j].Sent?
    ensures trace[j].id < nextId
    ensures forall i :: 0 <= i < j && trace[i].Sent? ==>
              trace[i].id < trace[j].id && exists k :: i < k < j && trace[k].Settled? && trace[k].id == trace[i].id
    decreases |trace|
  {
    var n := |trace| - 1;
    if j < n {
      match trace[n]
      case Sent(id) => SerialOrders(trace[..n], id, None, j);
      case Settled(id, _) =>
        var snapshot :| Serial(trace[..n], nextId, Some(Exchange(id, snapshot)));
        SerialOrders(trace[..n], nextId, Some(Exchange(id, snapshot)), j);
      case _ => SerialOrders(trace[..n], nextId, inFlight, j);
    } else {
      forall i | 0 <= i < j && trace[i].Sent?
        ensures trace[i].id < trace[j].id && exists k :: i < k < j && trace[k].Settled? && trace[k].id == trace[i].id
      {
        SentIsSettled(trace[..j], trace[j].id, i);
      }
    }
  }

  /** With nothing in flight, every request sent has been settled. */
  lemma {:induction false} SentIsSettled(trace: seq<Observation>, nextId: nat, i: nat)
    requires Serial(trace, nextId, None) && i < |trace| && trace[i].Sent?
    ensures trace[i].id < nextId
    ensures exists k :: i < k < |trace| && trace[k].Settled? && trace[k].id == trace[i].id
    decreases |trace|
  {
    var n := |trace| - 1;
    if trace[n].Settled? {
      var snapshot :| Serial(trace[..n], nextId, Some(Exchange(trace[n].id, snapshot)));
      InFlightSettles(trace[..n], nextId, Exchange(trace[n].id, snapshot), i);
    } else {
      SentIsSettled(trace[..n], nextId, i);
    }
  }

  lemma {:induction false} InFlightSettles(trace: seq<Observation>, nextId: nat, exchange: Exchange, i: nat)
    requires Serial(trace, nextId, Some(exchange)) && i < |trace| && trace[i].Sent?
    ensures trace[i].id == exchange.id || exists k :: i < k < |trace| && trace[k].Settled? && trace[k].id == trace[i].id
    ensures trace[i].id < nextId
    decreases |trace|
  {
    var n := |trace| - 1;
    if trace[n].Sent? {
      if i < n {
        SentIsSettled(trace[..n], trace[n].id, i);
      }
    } else {
      InFlightSettles(trace[..n], nextId, exchange, i);
    }
  }

  /**
   * Under any loss, repetition and reordering of events and any replies: subscribers see strictly
   * increasing sequences, never one at or below the connecting snapshot or a snapshot returned
   * before; request numbers strictly increase, and each request is settled before the next is sent.
   */
  lemma SubscribersSeeOrder(head: Head, queued: seq<Inbound>, steps: seq<Step>, i: nat, j: nat)
    requires head.sequence >= 0
    requires i <= j < |Run(Connect(head, queued), steps).trace|
    ensures var trace := Run(Connect(head, queued), steps).trace;
      && (trace[j].Delivered? ==> head.sequence < trace[j].envelope.sequence)
      && (i < j && trace[i].Delivered? && trace[j].Delivered? ==> trace[i].envelope.sequence < trace[j].envelope.sequence)
      && (i < j && trace[i].Returned? && trace[j].Delivered? ==> trace[i].sequence < trace[j].envelope.sequence)
      && (i < j && trace[i].Sent? && trace[j].Sent? ==>
            trace[i].id < trace[j].id && exists k :: i < k < j && trace[k].Settled? && trace[k].id == trace[i].id)
  {
    QueuedEventsReachNobody(Client(head.mode, head.sequence, 2, None, [], false, []), queued, head.sequence);
    var c := Connect(head, queued);
    RunKeeps(c, head.sequence, steps);
    var after := Run(c, steps);
    if after.trace[j].Delivered? {
      RisingOrders(after.trace, head.sequence, after.last, j);
    }
    if after.trace[j].Sent? {
      SerialOrders(after.trace, after.nextId, after.inFlight, j);
    }
  }

  function Arrivals(envelopes: seq<Envelope>): seq<Step> {
    seq(|envelopes|, i requires 0 <= i < |envelopes| =>
      Receive(Message(PROTOCOL_VERSION, Some(envelopes[i].sequence), Some(envelopes[i].event))))
  }

  function Deliveries(envelopes: seq<Envelope>): seq<Observation> {
    seq(|envelopes|, i requires 0 <= i < |envelopes| => Delivered(envelopes[i]))
  }

  /** Events of this mode that arrive in order above the watermark pass the filter entirely. */
  lemma {:induction false} OrderedEventsPass(c: Client, envelopes: seq<Envelope>)
    requires c.subscribed
    requires forall i :: 0 <= i < |envelopes| ==> c.last < envelopes[i].sequence <= MAX_SAFE_INTEGER
    requires forall i, j :: 0 <= i < j < |envelopes| ==> envelopes[i].sequence < envelopes[j].sequence
    requires forall i :: 0 <= i < |envelopes| ==> BelongsTo(c.mode, envelopes[i].event)
    ensures var after := Run(c, Arrivals(envelopes));
      && after == c.(last := after.last, trace := c.trace + Deliveries(envelopes))
      && after.last == (if envelopes == [] then c.last else envelopes[|envelopes| - 1].sequence)
    decreases |envelopes|
  {
    if envelopes == [] {
      assert c.trace + [] == c.trace;
    } else {
      var init := envelopes[..|envelopes| - 1];
      OrderedEventsPass(c, init);
      assert Arrivals(envelopes)[..|envelopes| - 1] == Arrivals(init);
      assert Deliveries(envelopes) == Deliveries(init) + [Delivered(envelopes[|envelopes| - 1])];
    }
  }

  /** Events at or below the watermark never pass, whatever else is in them. */
  lemma {:induction false} StaleEventsAreDropped(c: Client, envelopes: seq<Envelope>)
    requires forall i :: 0 <= i < |envelopes| ==> envelopes[i].sequence <= c.last
    ensures Run(c, Arrivals(envelopes)) == c
    decreases |envelopes|
  {
    if envelopes != [] {
      var init := envelopes[..|envelopes| - 1];
      StaleEventsAreDropped(c, init);
      assert Arrivals(envelopes)[..|envelopes| - 1] == Arrivals(init);
    }
  }

  // ---------------------------------------------------------------------------
  // The mutable object

  /** One asynchronous call is split where it awaits: starting, settling and resuming its caller. */
  class FomalhautClient {
    const mode: Mode
    var lastSequence: nat
    var nextRequestId: nat
    var busy: bool
    var subscribed: bool
    var exchange: Exchange
    var resuming: seq<Option<Head>>
    ghost var trace: seq<Observation>

    ghost function Model(): Client
      reads this
    {
      Client(mode, lastSequence, nextRequestId, if busy then Some(exchange) else None, resuming, subscribed, trace)
    }

    /** Bootstraps from the first snapshot, then replays the events queued meanwhile. */
    constructor (head: Head, queued: seq<Inbound>)
      requires head.sequence >= 0
      ensures Model() == Connect(head, queued)
    {
      mode, lastSequence := head.mode, head.sequence;
      nextRequestId, busy, subscribed, exchange, resuming, trace := 2, false, false, Exchange(1, true), [], [];
      new;
      for i := 0 to |queued|
        invariant Model() == Replay(Client(head.mode, head.sequence, 2, None, [], false, []), queued[..i])
      {
        assert queued[..i + 1][..i] == queued[..i];
        ReceiveEvent(queued[i]);
      }
      assert queued[..|queued|] == queued;
    }

    method ReceiveEvent(value: Inbound)
      modifies this
      ensures Model() == old(Model()).ReceiveEvent(value)
    {
      if value.Junk? {
        return;
      }
      if value.protocol != PROTOCOL_VERSION || value.sequence.None? || value.event.None? {
        return;
      }
      var sequence, event := value.sequence.value, value.event.value;
      if !SafeInteger(sequence) || sequence <= lastSequence || !BelongsTo(mode, event) {
        return;
      }
      lastSequence := sequence;
      if subscribed {
        trace := trace + [Delivered(Envelope(sequence, event))];
      }
    }

    method StartExchange(snapshot: bool) returns (id: Option<nat>)
      modifies this
      ensures Model() == old(Model()).StartExchange(snapshot)
      ensures id.Some? ==> Model().inFlight == Some(Exchange(id.value, snapshot))
    {
      if busy || nextRequestId > MAX_SAFE_INTEGER {
        trace := trace + [Threw];
        return None;
      }
      id := Some(nextRequestId);
      exchange := Exchange(nextRequestId, snapshot);
      trace := trace + [Sent(nextRequestId)];
      nextRequestId := nextRequestId + 1;
      busy := true;
    }

    method SettleExchange(reply: Reply)
      modifies this
      ensures Model() == old(Model()).SettleExchange(reply)
    {
      if busy {
        var ok := reply.Granted? && reply.protocol == PROTOCOL_VERSION && reply.id == exchange.id;
        trace := trace + [Settled(exchange.id, ok)];
        if exchange.snapshot && ok {
          resuming := resuming + [reply.head];
        }
        busy := false;
      }
    }

    method ResumeCaller() returns (snapshot: Option<Head>)
      modifies this
      ensures Model() == old(Model()).ResumeCaller()
    {
      if resuming == [] {
        return None;
      }
      var head := resuming[0];
      resuming := resuming[1..];
      if !ValidHead(head) || head.value.mode != mode {
        trace := trace + [Threw];
        return None;
      }
      if head.value.sequence > lastSequence {
        lastSequence := head.value.sequence;
      }
      trace := trace + [Returned(head.value.sequence)];
      return head;
    }

    method Subscribe()
      modifies this
      ensures Model() == old(Model()).(subscribed := true)
    {
      subscribed := true;
    }
  }
}

/** Correlating script messages with a controller thread's answers across page loads (fomalhaut-gtk, lib.rs). */
module Bridge {
  import opened Prelude

  /** One script message that was handed to the controller: its page epoch and its serial number. */
  datatype Ticket = Ticket(epoch: nat, message: nat)

  datatype Command = Request(ticket: Ticket) | CancelForPage

  /** A batch carries the epoch it was submitted in; which message it answers is known only here. */
  datatype Output = Batch(ticket: Ticket, terminal: bool) | Events | Fatal

  datatype Failure = UncorrelatedReply | ControllerFatal | ControllerDisconnected | RendererTerminated
                   | PageEpochExhausted | PageCancellation

  datatype Ending = Running | Completed | Failed(failure: Failure)

  /** A message's one reply: the answer computed for `answer` on page `page`, or an error. */
  datatype Reply = Answered(message: nat, asked: nat, answer: Ticket, page: nat) | Errored(message: nat)

  /**
   * What the controller thread does next: answer the oldest command, tell of events, or give this
   * view up, with or without a fatal notice, and with or without exiting altogether.
   */
  datatype Work = Answers(terminal: bool) | Tells | Breaks(told: bool, exits: bool)

  /**
   * `room` says whether the queue a step sends into has room left. A locker's command queue is shared
   * by all its views, so any step may find its queue full. A command that the thread holds while it
   * waits for room to answer counts as still queued.
   */
  datatype Step =
    | ScriptMessage(valid: bool, room: bool)
    | LoadStarted(room: bool)
    | RendererDied
    | Work(work: Work, room: bool)
    | Poll

  datatype Submitted = Submitted(host: Host, ok: bool, busy: bool)

  function Cancels(stream: seq<Command>): nat {
    if stream == [] then 0
    else Cancels(stream[..|stream| - 1]) + if stream[|stream| - 1].CancelForPage? then 1 else 0
  }

  /**
   * The host's cells, the two queues to and from the controller thread, whether that thread still
   * hears commands and still speaks to this view, and what has happened: messages received, replies
   * given, and commands accepted so far.
   */
  datatype Host = Host(
    epoch: nat, pending: Option<Ticket>, ending: Ending,
    commands: seq<Command>, outputs: seq<Output>, deaf: bool, mute: bool,
    messages: nat, replies: seq<Reply>, stream: seq<Command>)
  {
    predicate Stopped() {
      !ending.Running?
    }

    function TrySend(command: Command, room: bool): Submitted {
      if deaf then Submitted(this, false, false)
      else if !room then Submitted(this, false, true)
      else Submitted(this.(commands := commands + [command], stream := stream + [command]), true, false)
    }

    function RejectPending(): Host {
      match pending
      case None => this
      case Some(ticket) => this.(pending := None, replies := replies + [Errored(ticket.message)])
    }

    /** Ending the view's life once: the pending reply is rejected and the controller is shut down. */
    function End(how: Ending): Host {
      if Stopped() then this
      else RejectPending().(ending := how, commands := [], deaf := true, mute := true)
    }

    function Receive(valid: bool, room: bool): Host {
      var message, counted := messages, this.(messages := messages + 1);
      if !valid || pending.Some? then
        counted.(replies := replies + [Errored(message)])
      else
        var submitted := counted.TrySend(Request(Ticket(epoch, message)), room);
        if submitted.ok then submitted.host.(pending := Some(Ticket(epoch, message)))
        else counted.(replies := replies + [Errored(message)])
    }

    function Load(room: bool): Host {
      if Stopped() then this
      else if epoch >= U64_MAX then End(Failed(PageEpochExhausted))
      else
        var submitted := this.(epoch := epoch + 1).RejectPending().TrySend(CancelForPage, room);
        if submitted.ok then submitted.host else submitted.host.End(Failed(PageCancellation))
    }

    /** The controller thread waits while its output queue is full, unless it gives the view up. */
    function DoWork(work: Work, room: bool): Host {
      match work
      case Breaks(told, exits) =>
        if mute then this
        else
          this.(outputs := if told && room then outputs + [Fatal] else outputs,
                mute := true, deaf := deaf || exits, commands := if exits then [] else commands)
      case Tells =>
        if mute || !room then this else this.(outputs := outputs + [Events])
      case Answers(terminal) =>
        if commands == [] || (!mute && !room) then this
        else
          var rest := this.(commands := commands[1..]);
          if mute || commands[0].CancelForPage? then rest
          else rest.(outputs := outputs + [Batch(commands[0].ticket, terminal)])
    }

    function HandleBatch(ticket: Ticket, terminal: bool): Host {
      if ticket.epoch != epoch then
        if terminal then End(Completed) else this
      else
        match pending
        case None => End(Failed(UncorrelatedReply))
        case Some(asked) =>
          if asked.epoch != ticket.epoch then
            this.(pending := None, replies := replies + [Errored(asked.message)])
          else
            var replied := this.(pending := None,
                                 replies := replies + [Answered(asked.message, asked.epoch, ticket, epoch)]);
            if terminal then replied.End(Completed) else replied
    }

    /** One turn of the polling loop. */
    function PollOnce(): Host {
      if Stopped() then this
      else if outputs == [] then
        if mute then End(Failed(ControllerDisconnected)) else this
      else
        var rest := this.(outputs := outputs[1..]);
        match outputs[0]
        case Events => rest
        case Fatal => rest.End(Failed(ControllerFatal))
        case Batch(ticket, terminal) => rest.HandleBatch(ticket, terminal)
    }

    function Apply(step: Step): Host {
      match step
      case ScriptMessage(valid, room) => Receive(valid, room)
      case LoadStarted(room) => Load(room)
      case RendererDied => End(Failed(RendererTerminated))
      case Work(work, room) => DoWork(work, room)
      case Poll => PollOnce()
    }

    ghost predicate Inv() {
      match this
      case Host(epoch, pending, ending, commands, outputs, deaf, mute, messages, replies, stream) =>
      && (Stopped() ==> deaf && pending.None? && commands == [])
      && (!Stopped() ==> Correlated(Flight(outputs, commands), pending, epoch, mute) && epoch == Cancels(stream))
      && Preceded(stream)
      && Replied(replies, pending, messages)
      && Owned(replies)
    }
  }

  const OPENED := Host(0, None, Running, [], [], false, false, 0, [], [])

  function Run(h: Host, steps: seq<Step>): Host
    decreases |steps|
  {
    if steps == [] then h else Run(h, steps[..|steps| - 1]).Apply(steps[|steps| - 1])
  }

  // ---------------------------------------------------------------------------
  // What is in flight

  function Asked(commands: seq<Command>): seq<Ticket> {
    if commands == [] then []
    else (if commands[0].Request? then [commands[0].ticket] else []) + Asked(commands[1..])
  }

  function AnsweredBy(outputs: seq<Output>): seq<Ticket> {
    if outputs == [] then []
    else (if outputs[0].Batch? then [outputs[0].ticket] else []) + AnsweredBy(outputs[1..])
  }

  /** Messages being worked on, oldest first: answered ones wait to be polled, others to be handled. */
  function Flight(outputs: seq<Output>, commands: seq<Command>): seq<Ticket> {
    AnsweredBy(outputs) + Asked(commands)
  }

  /** Only the newest message in flight may be of this page, and it is then the pending one. */
  ghost predicate Correlated(flight: seq<Ticket>, pending: Option<Ticket>, epoch: nat, mute: bool) {
    && (forall i :: 0 <= i < |flight| ==> flight[i].epoch <= epoch)
    && (forall i :: 0 <= i < |flight| && flight[i].epoch == epoch ==> i == |flight| - 1 && pending == Some(flight[i]))
    && (pending.Some? ==>
          && pending.value.epoch == epoch
          && (mute || (flight != [] && flight[|flight| - 1] == pending.value)))
  }

  /** Every request was accepted behind exactly as many page cancellations as its page's epoch. */
  ghost predicate Preceded(stream: seq<Command>) {
    forall k :: 0 <= k < |stream| && stream[k].Request? ==> stream[k].ticket.epoch == Cancels(stream[..k])
  }

  /** Every message has been replied to exactly once, except the pending one, which has not been yet. */
  ghost predicate Replied(replies: seq<Reply>, pending: Option<Ticket>, messages: nat) {
    && (forall i, j :: 0 <= i < j < |replies| ==> replies[i].message != replies[j].message)
    && (forall i :: 0 <= i < |replies| ==> replies[i].message < messages)
    && (pending.Some? ==>
          pending.value.message < messages && forall i :: 0 <= i < |replies| ==> replies[i].message != pending.value.message)
    && |replies| + (if pending.Some? then 1 else 0) == messages
  }

  /** Every answer was computed for the very message it replies to, on the page that sent it. */
  ghost predicate Owned(replies: seq<Reply>) {
    forall i :: 0 <= i < |replies| && replies[i].Answered? ==>
      && replies[i].answer.message == replies[i].message
      && replies[i].answer.epoch == replies[i].asked == replies[i].page
  }

  lemma {:induction false} AskedAppend(commands: seq<Command>, command: Command)
    ensures Asked(commands + [command]) == Asked(commands) + if command.Request? then [command.ticket] else []
    decreases |commands|
  {
    if commands != [] {
      assert (commands + [command])[1..] == commands[1..] + [command];
      AskedAppend(commands[1..], command);
    }
  }

  lemma {:induction false} AnsweredAppend(outputs: seq<Output>, output: Output)
    ensures AnsweredBy(outputs + [output]) == AnsweredBy(outputs) + if output.Batch? then [output.ticket] else []
    decreases |outputs|
  {
    if outputs != [] {
      assert (outputs + [output])[1..] == outputs[1..] + [output];
      AnsweredAppend(outputs[1..], output);
    }
  }

  lemma {:induction false} SendKeeps(stream: seq<Command>, command: Command)
    requires Preceded(stream) && (command.Request? ==> command.ticket.epoch == Cancels(stream))
    ensures Preceded(stream + [command])
    ensures Cancels(stream + [command]) == Cancels(stream) + if command.CancelForPage? then 1 else 0
  {
    var longer := stream + [command];
    assert longer[..|stream|] == stream;
    forall k | 0 <= k < |longer| && longer[k].Request?
      ensures longer[k].ticket.epoch == Cancels(longer[..k])
    {
      assert k < |stream| ==> longer[..k] == stream[..k];
    }
  }

  lemma RejectKeeps(h: Host)
    requires Replied(h.replies, h.pending, h.messages) && Owned(h.replies)
    ensures var r := h.RejectPending();
      && r == h.(pending := None, replies := r.replies)
      && Replied(r.replies, None, h.messages) && Owned(r.replies)
  {
  }

  lemma EndKeeps(h: Host, how: Ending)
    requires Replied(h.replies, h.pending, h.messages) && Owned(h.replies) && Preceded(h.stream)
    requires !how.Running? && !h.Stopped()
    ensures h.End(how).Inv() && h.End(how).ending == how
  {
    RejectKeeps(h);
  }

  /** An error reply to the message just received. */
  lemma ErrorKeeps(h: Host)
    requires h.Inv()
    ensures h.(messages := h.messages + 1, replies := h.replies + [Errored(h.messages)]).Inv()
  {
  }

  /** A message handed over becomes the newest one in flight, and the pending one. */
  lemma HandedOver(h: Host, ticket: Ticket)
    requires h.Inv() && !h.Stopped() && h.pending.None? && ticket.epoch == h.epoch
    ensures Correlated(Flight(h.outputs, h.commands + [Request(ticket)]), Some(ticket), h.epoch, h.mute)
  {
    AskedAppend(h.commands, Request(ticket));
    assert Flight(h.outputs, h.commands + [Request(ticket)]) == Flight(h.outputs, h.commands) + [ticket];
  }

  lemma ReceiveKeeps(h: Host, valid: bool, room: bool)
    requires h.Inv()
    ensures h.Receive(valid, room).Inv() && h.Receive(valid, room).ending == h.ending
  {
    var ticket := Ticket(h.epoch, h.messages);
    if valid && h.pending.None? && !h.deaf && room {
      HandedOver(h, ticket);
      SendKeeps(h.stream, Request(ticket));
    } else {
      ErrorKeeps(h);
    }
  }

  lemma LoadKeeps(h: Host, room: bool)
    requires h.Inv()
    ensures h.Load(room).Inv()
    ensures h.Load(room).ending in {h.ending, Failed(PageEpochExhausted), Failed(PageCancellation)}
  {
    if !h.Stopped() && h.epoch >= U64_MAX {
      EndKeeps(h, Failed(PageEpochExhausted));
    } else if !h.Stopped() {
      RejectKeeps(h);
      var turned := h.(epoch := h.epoch + 1).RejectPending();
      SendKeeps(h.stream, CancelForPage);
      AskedAppend(h.commands, CancelForPage);
      assert Asked(h.commands + [CancelForPage]) == Asked(h.commands);
      if !turned.TrySend(CancelForPage, room).ok {
        EndKeeps(turned, Failed(PageCancellation));
      }
    }
  }

  /** A message may leave the flight if it is not the pending one, or if the view is given up anyway. */
  lemma LeaveKeeps(flight: seq<Ticket>, k: nat, pending: Option<Ticket>, epoch: nat, mute: bool)
    requires Correlated(flight, pending, epoch, mute) && k < |flight|
    requires mute || flight[k].epoch != epoch
    ensures Correlated(flight[..k] + flight[k + 1..], pending, epoch, mute)
  {
    var rest := flight[..k] + flight[k + 1..];
    forall i | 0 <= i < |rest|
      ensures rest[i].epoch <= epoch && (rest[i].epoch == epoch ==> i == |rest| - 1 && pending == Some(rest[i]))
    {
      assert rest[i] == if i < k then flight[i] else flight[i + 1];
    }
  }

  lemma DropKeeps(flight: seq<Ticket>, n: nat, pending: Option<Ticket>, epoch: nat)
    requires Correlated(flight, pending, epoch, true) && n <= |flight|
    ensures Correlated(flight[..n], pending, epoch, true)
  {
  }

  lemma BreakKeeps(h: Host, told: bool, exits: bool, room: bool)
    requires h.Inv()
    ensures h.DoWork(Breaks(told, exits), room).Inv()
  {
    if !h.mute {
      AnsweredAppend(h.outputs, Fatal);
      assert AnsweredBy(h.outputs + [Fatal]) == AnsweredBy(h.outputs);
      if !h.Stopped() && exits {
        var flight := Flight(h.outputs, h.commands);
        DropKeeps(flight, |AnsweredBy(h.outputs)|, h.pending, h.epoch);
        assert flight[..|AnsweredBy(h.outputs)|] == Flight(h.outputs, []);
      }
    }
  }

  /** Handling a request moves it from the command queue to the output queue, in its place in the flight. */
  lemma HandledStaysInFlight(outputs: seq<Output>, commands: seq<Command>, terminal: bool)
    requires commands != [] && commands[0].Request?
    ensures Flight(outputs + [Batch(commands[0].ticket, terminal)], commands[1..]) == Flight(outputs, commands)
  {
    AnsweredAppend(outputs, Batch(commands[0].ticket, terminal));
  }

  lemma MiddleLeaves(before: seq<Ticket>, ticket: Ticket, after: seq<Ticket>)
    ensures var all := before + ([ticket] + after);
      all[..|before|] + all[|before| + 1..] == before + after && all[|before|] == ticket
  {
  }

  lemma UnansweredLeaves(h: Host)
    requires h.Inv() && !h.Stopped() && h.mute && h.commands != [] && h.commands[0].Request?
    ensures Correlated(Flight(h.outputs, h.commands[1..]), h.pending, h.epoch, true)
  {
    var before, after := AnsweredBy(h.outputs), Asked(h.commands[1..]);
    MiddleLeaves(before, h.commands[0].ticket, after);
    LeaveKeeps(before + ([h.commands[0].ticket] + after), |before|, h.pending, h.epoch, true);
  }

  lemma AnswerKeeps(h: Host, terminal: bool, room: bool)
    requires h.Inv()
    ensures h.DoWork(Answers(terminal), room).Inv()
  {
    if !h.Stopped() && h.commands != [] {
      if h.commands[0].CancelForPage? {
        assert Flight(h.outputs, h.commands) == Flight(h.outputs, h.commands[1..]);
      } else if h.mute {
        UnansweredLeaves(h);
      } else {
        HandledStaysInFlight(h.outputs, h.commands, terminal);
      }
    }
  }

  lemma WorkKeeps(h: Host, work: Work, room: bool)
    requires h.Inv()
    ensures h.DoWork(work, room).Inv() && h.DoWork(work, room).ending == h.ending
  {
    match work
    case Answers(terminal) => AnswerKeeps(h, terminal, room);
    case Breaks(told, exits) => BreakKeeps(h, told, exits, room);
    case Tells =>
      AnsweredAppend(h.outputs, Events);
      assert Flight(h.outputs + [Events], h.commands) == Flight(h.outputs, h.commands);
  }

  /** The oldest message in flight, once its batch is polled. */
  lemma PolledLeaves(h: Host, ticket: Ticket, terminal: bool)
    requires h.Inv() && !h.Stopped() && h.outputs != [] && h.outputs[0] == Batch(ticket, terminal)
    ensures var rest := Flight(h.outputs[1..], h.commands);
      && (ticket.epoch == h.epoch ==> h.pending == Some(ticket) && rest == [])
      && (ticket.epoch != h.epoch ==> Correlated(rest, h.pending, h.epoch, h.mute))
  {
    var flight, rest := Flight(h.outputs, h.commands), Flight(h.outputs[1..], h.commands);
    assert flight == [ticket] + rest && flight[0] == ticket;
    if ticket.epoch != h.epoch {
      LeaveKeeps(flight, 0, h.pending, h.epoch, h.mute);
      assert flight[..0] + flight[1..] == rest;
    }
  }

  /** A polled batch of this page finds its own message pending; one of an earlier page finds nobody. */
  lemma BatchKeeps(h: Host, rest: Host, ticket: Ticket, terminal: bool)
    requires h.Inv() && !h.Stopped() && h.outputs != [] && h.outputs[0] == Batch(ticket, terminal)
    requires rest == h.(outputs := h.outputs[1..])
    ensures ticket.epoch == h.epoch ==> h.pending == Some(ticket)
    ensures rest.HandleBatch(ticket, terminal).Inv()
    ensures rest.HandleBatch(ticket, terminal).ending in {h.ending, Completed}
  {
    PolledLeaves(h, ticket, terminal);
    if ticket.epoch == h.epoch {
      RepliedKeeps(h, rest, ticket, terminal);
    } else if terminal {
      EndKeeps(rest, Completed);
    }
  }

  /** The pending message is answered; nothing of this page is left in flight. */
  lemma RepliedKeeps(h: Host, rest: Host, ticket: Ticket, terminal: bool)
    requires h.Inv() && !h.Stopped() && h.pending == Some(ticket) && ticket.epoch == h.epoch
    requires rest == h.(outputs := rest.outputs) && Flight(rest.outputs, rest.commands) == []
    ensures rest.HandleBatch(ticket, terminal).Inv()
    ensures rest.HandleBatch(ticket, terminal).ending in {h.ending, Completed}
  {
    var replied := rest.(pending := None,
                         replies := h.replies + [Answered(ticket.message, ticket.epoch, ticket, h.epoch)]);
    assert replied.Inv();
    if terminal {
      EndKeeps(replied, Completed);
    }
  }

  lemma PollKeeps(h: Host)
    requires h.Inv()
    ensures h.PollOnce().Inv()
    ensures h.PollOnce().ending in {h.ending, Completed, Failed(ControllerFatal), Failed(ControllerDisconnected)}
  {
    if !h.Stopped() {
      if h.outputs == [] {
        if h.mute {
          EndKeeps(h, Failed(ControllerDisconnected));
        }
      } else {
        var rest := h.(outputs := h.outputs[1..]);
        match h.outputs[0]
        case Events => assert Flight(h.outputs, h.commands) == Flight(rest.outputs, rest.commands);
        case Fatal => EndKeeps(rest, Failed(ControllerFatal));
        case Batch(ticket, terminal) => BatchKeeps(h, rest, ticket, terminal);
      }
    }
  }

  lemma ApplyKeeps(h: Host, step: Step)
    requires h.Inv()
    ensures h.Apply(step).Inv()
    ensures h.Apply(step).ending == Failed(UncorrelatedReply) ==> h.ending == Failed(UncorrelatedReply)
  {
    match step
    case ScriptMessage(valid, room) => ReceiveKeeps(h, valid, room);
    case LoadStarted(room) => LoadKeeps(h, room);
    case RendererDied =>
      if !h.Stopped() {
        EndKeeps(h, Failed(RendererTerminated));
      }
    case Work(work, room) => WorkKeeps(h, work, room);
    case Poll => PollKeeps(h);
  }

  lemma {:induction false} RunKeeps(h: Host, steps: seq<Step>)
    requires h.Inv()
    ensures Run(h, steps).Inv()
    ensures Run(h, steps).ending == Failed(UncorrelatedReply) ==> h.ending == Failed(UncorrelatedReply)
    decreases |steps|
  {
    if steps != [] {
      RunKeeps(h, steps[..|steps| - 1]);
      ApplyKeeps(Run(h, steps[..|steps| - 1]), steps[|steps| - 1]);
    }
  }

  /**
   * Under every interleaving of script messages, page loads, controller work and polls: the host never
   * finds an uncorrelated reply, every answer goes to the message it was computed for while the
   * page that sent it is still shown, every message is replied to exactly once or is the one
   * pending, and every accepted request follows one cancellation per earlier page.
   */
  lemma AnswersFindTheirMessages(steps: seq<Step>)
    ensures var h := Run(OPENED, steps);
      && h.ending != Failed(UncorrelatedReply)
      && Owned(h.replies)
      && Replied(h.replies, h.pending, h.messages)
      && Preceded(h.stream)
      && (h.Stopped() ==> h.pending.None?)
  {
    RunKeeps(OPENED, steps);
  }

  /** A batch polled while its page is shown finds its own message pending, so neither mismatch branch is ever taken. */
  lemma PolledBatchIsPending(steps: seq<Step>)
    ensures var h := Run(OPENED, steps);
      !h.Stopped() && h.outputs != [] && h.outputs[0].Batch? && h.outputs[0].ticket.epoch == h.epoch ==>
        h.pending == Some(h.outputs[0].ticket)
  {
    var h := Run(OPENED, steps);
    RunKeeps(OPENED, steps);
    if !h.Stopped() && h.outputs != [] && h.outputs[0].Batch? {
      BatchKeeps(h, h.(outputs := h.outputs[1..]), h.outputs[0].ticket, h.outputs[0].terminal);
    }
  }

  function Polls(turns: nat): seq<Step> {
    seq(turns, i requires 0 <= i < turns => Poll)
  }

  /** After the end nothing more is handed to the controller, whatever the page still does. */
  lemma {:induction false} NothingAfterTheEnd(h: Host, steps: seq<Step>)
    requires h.Inv() && h.Stopped()
    ensures Run(h, steps).stream == h.stream && Run(h, steps).ending == h.ending
    decreases |steps|
  {
    if steps != [] {
      NothingAfterTheEnd(h, steps[..|steps| - 1]);
      RunKeeps(h, steps[..|steps| - 1]);
    }
  }

  // ---------------------------------------------------------------------------
  // The mutable object

  class BridgeHost {
    var pageEpoch: nat
    var pendingReply: Option<Ticket>
    var ending: Ending
    var commands: seq<Command>
    var outputs: seq<Output>
    var deaf: bool
    var mute: bool
    var messages: nat
    var replies: seq<Reply>
    ghost var stream: seq<Command>

    ghost function Model(): Host
      reads this
    {
      Host(pageEpoch, pendingReply, ending, commands, outputs, deaf, mute, messages, replies, stream)
    }

    constructor ()
      ensures Model() == OPENED
    {
      pageEpoch, pendingReply, ending, commands, outputs := 0, None, Running, [], [];
      deaf, mute, messages, replies, stream := false, false, 0, [], [];
    }

    method TrySend(command: Command, room: bool) returns (ok: bool, busy: bool)
      modifies this
      ensures Submitted(Model(), ok, busy) == old(Model()).TrySend(command, room)
    {
      if deaf {
        return false, false;
      }
      if !room {
        return false, true;
      }
      commands := commands + [command];
      stream := stream + [command];
      return true, false;
    }

    method OnScriptMessage(valid: bool, room: bool)
      modifies this
      ensures Model() == old(Model()).Receive(valid, room)
    {
      var message := messages;
      messages := messages + 1;
      if !valid || pendingReply.Some? {
        replies := replies + [Errored(message)];
        return;
      }
      var epoch := pageEpoch;
      var ok, _ := TrySend(Request(Ticket(epoch, message)), room);
      if ok {
        pendingReply := Some(Ticket(epoch, message));
      } else {
        replies := replies + [Errored(message)];
      }
    }

    method RejectPendingReply()
      modifies this
      ensures Model() == old(Model()).RejectPending()
    {
      if pendingReply.Some? {
        replies := replies + [Errored(pendingReply.value.message)];
        pendingReply := None;
      }
    }

    /** Both ways for the view's life to end, natively completed or failed. */
    method Finish(how: Ending)
      modifies this
      ensures Model() == old(Model()).End(how)
    {
      if !ending.Running? {
        return;
      }
      ending := how;
      RejectPendingReply();
      commands, deaf, mute := [], true, true;
    }

    method OnLoadStarted(room: bool)
      modifies this
      ensures Model() == old(Model()).Load(room)
    {
      if !ending.Running? {
        return;
      }
      if pageEpoch >= U64_MAX {
        Finish(Failed(PageEpochExhausted));
        return;
      }
      pageEpoch := pageEpoch + 1;
      RejectPendingReply();
      var ok, _ := TrySend(CancelForPage, room);
      if !ok {
        Finish(Failed(PageCancellation));
      }
    }

    /** The polling callback: it takes outputs until there are none or the view's life is over. */
    method OnPoll()
      modifies this
      ensures exists turns: nat :: Model() == Run(old(Model()), Polls(turns))
      ensures old(ending).Running? && ending.Running? ==> outputs == []
    {
      ghost var turns := 0;
      assert Polls(0) == [];
      while ending.Running? && (outputs != [] || mute)
        invariant Model() == Run(old(Model()), Polls(turns))
        decreases |outputs|, ending.Running?
      {
        PollOnce();
        assert Polls(turns + 1)[..turns] == Polls(turns);
        turns := turns + 1;
      }
    }

    method PollOnce()
      modifies this
      ensures Model() == old(Model()).PollOnce()
      ensures |outputs| < |old(outputs)| || (outputs == old(outputs) && (old(mute) ==> !ending.Running?))
    {
      if !ending.Running? {
        return;
      }
      if outputs == [] {
        if mute {
          Finish(Failed(ControllerDisconnected));
        }
        return;
      }
      var output := outputs[0];
      outputs := outputs[1..];
      match output
      case Events =>
      case Fatal => Finish(Failed(ControllerFatal));
      case Batch(ticket, terminal) => HandleBatch(ticket, terminal);
    }

    method HandleBatch(ticket: Ticket, terminal: bool)
      modifies this
      ensures Model() == old(Model()).HandleBatch(ticket, terminal)
    {
      if ticket.epoch != pageEpoch {
        if terminal {
          Finish(Completed);
        }
        return;
      }
      if pendingReply.None? {
        Finish(Failed(UncorrelatedReply));
        return;
      }
      var asked := pendingReply.value;
      pendingReply := None;
      if asked.epoch != ticket.epoch {
        replies := replies + [Errored(asked.message)];
        return;
      }
      replies := replies + [Answered(asked.message, asked.epoch, ticket, pageEpoch)];
      if terminal {
        Finish(Completed);
      }
    }
  }
}

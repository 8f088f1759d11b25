/**
 * The locker's controller outlives its PAM workers: whatever they send through the codec, a request or a
 * sleep preparation is answered by a batch and never by a fatal error, over whole runs, until the numbers
 * JavaScript can represent run out. Only a resume whose fresh transaction reports an error is fatal.
 */
module Endurance {
  import opened Prelude
  import opened Frontend
  import opened LockerController
  import opened PamBackend
  import Core
  import Ipc

  /** The most events one request can publish: a state change, an own event, and one for each frame and the outcome. */
  const MAX_BATCH_EVENTS := 131

  /** A worker's answer whose texts the frontend may show. */
  predicate SafeReply(reply: Reply) {
    match reply
    case Arrived(PromptFrame(_, _, text)) => Displayable(text)
    case Arrived(MessageFrame(_, text)) => Displayable(text)
    case _ => true
  }

  ghost predicate SafeScript(script: seq<Reply>) {
    forall i :: 0 <= i < |script| ==> SafeReply(script[i])
  }

  predicate SafeEvent(event: Core.AuthEvent) {
    match event
    case Prompt(id, _, message) => id <= MAX_SAFE_INTEGER && Displayable(message)
    case Message(_, text) => Displayable(text)
    case _ => true
  }

  /** Pending events that can all be shown, and at most so many of them. */
  ghost predicate Fits(conv: Core.Conversation, count: int) {
    |conv.events| <= count && forall i :: 0 <= i < |conv.events| ==> SafeEvent(conv.events[i])
  }

  /** The bounds of the codec are those of the frontend. */
  lemma AcceptedFramesAreSafe(stream: seq<Byte>)
    requires Ipc.ReadWorker(stream).Ok?
    ensures SafeReply(Arrived(Ipc.ReadWorker(stream).value.value))
  {
  }

  /** Events that can be shown are all drained. */
  lemma {:induction false} SafeEventsDrain(p: Public, conv: Core.Conversation, gathered: seq<Event>)
    requires Fits(conv, |conv.events|)
    ensures var drained := p.Drain(conv, gathered);
      drained.events.Some? && |drained.events.value| == |gathered| + |conv.events|
    decreases |conv.events|
  {
    if conv.events != [] {
      assert SafeEvent(conv.events[0]);
      var Some(Applied(next, event)) := p.ApplyCore(conv.events[0]);
      SafeEventsDrain(next, conv.NextEvent().conv, gathered + [event]);
    }
  }

  /** A receiving backend with answers left that can be shown, and room for prompt identifiers. */
  ghost predicate Enduring(b: Backend, count: int) {
    b.Driving() && SafeScript(b.world.script) && b.conv.nextId <= MAX_SAFE_INTEGER && Fits(b.conv, count)
  }

  /** What a call may leave behind: safe events, safe answers still to come, and at most one prompt identifier gone. */
  ghost predicate Spends(nextId: nat, after: Backend, count: int) {
    Fits(after.conv, count) && SafeScript(after.world.script) && after.conv.nextId <= nextId + 1
  }

  lemma FrameFits(b: Backend, message: Ipc.WorkerMessage, count: int)
    requires Enduring(b, count) && SafeReply(Arrived(message))
    ensures match b.HandleFrame(message)
            case Again(next) =>
              next.world == b.world && next.conv.nextId == b.conv.nextId && next.received == b.received && Fits(next.conv, count + 1)
            case Over(ran) => Spends(b.conv.nextId, ran.backend, count + 1)
  {
  }

  lemma ReceiveFits(b: Backend, count: int)
    requires Enduring(b, count) && b.received < Ipc.MAX_TRANSACTION_FRAMES
    ensures match b.Step()
            case Again(next) =>
              SafeScript(next.world.script) && next.conv.nextId == b.conv.nextId
              && next.received == b.received + 1 && Fits(next.conv, count + 1)
            case Over(ran) => Spends(b.conv.nextId, ran.backend, count + 1)
  {
    var reply := b.world.Reply();
    if reply.Arrived? {
      FrameIsAmid(b, reply.message);
      StepHandles(b);
      assert SafeReply(b.world.script[0]);
      FrameFits(AfterFrame(b, reply.message), reply.message, count);
    }
  }

  /** Each frame of the budget adds at most one event. */
  lemma {:induction false} DriveFits(b: Backend, count: int)
    requires Enduring(b, count)
    ensures Spends(b.conv.nextId, b.Drive().backend, count + 129 - b.received)
    decreases 129 - b.received
  {
    StepKeeps(b);
    if b.received < Ipc.MAX_TRANSACTION_FRAMES {
      ReceiveFits(b, count);
      if b.Step().Again? {
        DriveFits(b.Step().backend, count + 1);
      }
    }
  }

  /** What a call may leave before its first receive. */
  ghost predicate Opening(b: Backend, turn: Turn) {
    match turn
    case Again(next) =>
      SafeScript(next.world.script) && next.conv.nextId == b.conv.nextId && Fits(next.conv, 0)
    case Over(ran) => Spends(b.conv.nextId, ran.backend, 129)
  }

  lemma StartFits(b: Backend)
    requires b.conv.events == [] && SafeScript(b.world.script)
    ensures Opening(b, b.Start())
  {
  }

  lemma AnswerFits(b: Backend, prompt: nat, response: Text)
    requires b.conv.events == [] && SafeScript(b.world.script)
    ensures Opening(b, b.Answer(prompt, response))
  {
  }

  lemma OpenedFits(b: Backend, turn: Turn)
    requires Opening(b, turn) && PamBackend.Opens(b, turn) && b.conv.nextId <= MAX_SAFE_INTEGER
    ensures Spends(b.conv.nextId, turn.Drive().backend, 129)
  {
    if turn.Again? {
      DriveFits(turn.backend, 0);
    }
  }

  lemma BeginFits(b: Backend)
    requires b.Inv() && b.conv.events == [] && SafeScript(b.world.script) && b.conv.nextId <= MAX_SAFE_INTEGER
    ensures Spends(b.conv.nextId, b.BeginReauth().backend, 129)
  {
    StartKeeps(b);
    StartFits(b);
    OpenedFits(b, b.Start());
  }

  lemma RespondFits(b: Backend, prompt: nat, response: Text)
    requires b.Inv() && b.conv.events == [] && SafeScript(b.world.script) && b.conv.nextId <= MAX_SAFE_INTEGER
    ensures Spends(b.conv.nextId, b.Respond(prompt, response).backend, 129)
  {
    AnswerKeeps(b, prompt, response);
    AnswerFits(b, prompt, response);
    OpenedFits(b, b.Answer(prompt, response));
  }

  /** Cancelling asks nothing of the worker and shows at most that it happened. */
  lemma CancelFits(b: Backend)
    requires b.Inv() && b.conv.events == [] && SafeScript(b.world.script)
    ensures var after := b.Cancel().backend;
      Fits(after.conv, 1) && after.world.script == b.world.script && after.conv.nextId == b.conv.nextId
  {
  }

  lemma QuietFits(l: Locker)
    requires l.Settled() && SafeScript(l.client.world.script)
    ensures var Cancelled(quiet, ok) := l.CancelForLifecycle();
      && ok && quiet.Settled() && quiet.lock == l.lock && quiet.auth.next == l.auth.next
      && quiet.client.world.script == l.client.world.script && quiet.client.conv.nextId == l.client.conv.nextId
  {
    CancelSettles(l);
    CancelFits(l.client);
  }

  lemma ExecuteFits(l: Locker, request: Request)
    requires l.Settled() && SafeScript(l.client.world.script) && l.client.conv.nextId <= MAX_SAFE_INTEGER
    ensures var Executed(after, outcome) := l.Execute(request);
      Spends(l.client.conv.nextId, after.client, 129) && |outcome.Own()| <= 1
  {
    if l.lock.Locked? {
      match request
      case AuthBegin(_) => BeginFits(l.client);
      case AuthRespond(prompt, response) => RespondFits(l.client, prompt, response);
      case AuthCancel => CancelFits(l.client);
      case PowerRequest(enabled, accepted) => QuietFits(l);
      case StateGet =>
      case SessionSelect(_) =>
    }
  }

  // ---------------------------------------------------------------------------
  // Single commands

  /** Room for so many more commands: one prompt identifier and a full batch of sequences each. */
  ghost predicate Lasting(l: Locker, commands: nat) {
    && l.Settled() && SafeScript(l.client.world.script)
    && l.client.conv.nextId + commands <= MAX_SAFE_INTEGER + 1
    && l.auth.next + commands * MAX_BATCH_EVENTS <= MAX_SAFE_INTEGER + 1
  }

  /** What a delivered batch may use up. */
  ghost predicate Uses(before: Locker, after: Locker) {
    && SafeScript(after.client.world.script)
    && after.client.conv.nextId <= before.client.conv.nextId + 1
    && after.auth.next <= before.auth.next + MAX_BATCH_EVENTS
  }

  lemma CollectUses(l: Locker)
    requires Fits(l.client.conv, 129)
    ensures var (collected, reported) := l.Collect();
      && reported.Some? && |reported.value| <= 129
      && collected.auth.next == l.auth.next
      && collected.client == l.client.(conv := l.client.conv.(events := []))
  {
    SafeEventsDrain(l.auth, l.client.conv, []);
    DrainDelivers(l.auth, l.client.conv, []);
  }

  lemma ConcludeUses(before: Locker, l: Locker, outcome: Outcome)
    requires Spends(before.client.conv.nextId, l.client, 129) && |outcome.Own()| <= 1
    requires l.auth.next == before.auth.next && before.auth.next + MAX_BATCH_EVENTS <= MAX_SAFE_INTEGER + 1
    ensures var Handled(after, batch) := l.Conclude(before, outcome); batch.Some? && Uses(before, after)
  {
    CollectUses(l);
  }

  /**
   * Every request of a settled locker is answered by a batch while prompt identifiers and event
   * sequences stay representable, whatever its PAM workers send through the codec.
   */
  lemma RequestsAreAnswered(l: Locker, request: Request)
    requires Lasting(l, 1)
    ensures var Handled(after, batch) := l.Handle(request); batch.Some? && Uses(l, after)
  {
    if request.StateGet? {
      StateGetAnswers(l);
    } else {
      ExecuteFits(l, request);
      ExecuteLeaves(l, request);
      var Executed(executed, outcome) := l.Execute(request);
      ConcludeUses(l, executed, outcome);
    }
  }

  /** Preparing for sleep is answered in the same way. */
  lemma SleepIsAnswered(l: Locker)
    requires Lasting(l, 1)
    ensures var Lifecycle(after, batch) := l.PrepareForSleep(); batch.Some? && Uses(l, after)
  {
    if l.lock.Locked? {
      QuietFits(l);
    }
  }

  // ---------------------------------------------------------------------------
  // When resuming succeeds

  /** The processes accept the next interaction. */
  predicate Accepts(script: seq<Reply>) {
    script != [] && !script[0].Broken?
  }

  /**
   * Behind messages, of which there are not too many, the worker either asks something or ends with
   * an outcome and then exits cleanly.
   */
  predicate Concludes(script: seq<Reply>, received: nat)
    decreases |script|
  {
    && received < Ipc.MAX_TRANSACTION_FRAMES
    && script != [] && script[0].Arrived?
    && match script[0].message
       case MessageFrame(_, _) => Concludes(script[1..], received + 1)
       case PromptFrame(_, _, _) => true
       case AuthenticatedFrame => Accepts(script[1..])
       case RejectedFrame => Accepts(script[1..])
       case Ready => false
       case FatalFrame => false
  }

  /** A worker takes its begin, after it has been spawned if need be, and reaches a prompt or an outcome. */
  predicate GoesAlong(script: seq<Reply>, spawns: bool) {
    && (spawns ==> Accepts(script))
    && var rest := if spawns then script[1..] else script;
    Accepts(rest) && Concludes(rest[1..], 0)
  }

  /** Resuming has nothing to open, or may begin and finds a worker that goes along. */
  predicate Resumes(l: Locker) {
    l.lock.Locked? ==>
      && !l.client.conv.state.Disconnected?
      && GoesAlong(l.client.world.script, l.client.conv.NeedsCancel() || !l.client.live)
  }

  /** One frame ends the receive loop without an error, ends it with one, or is a message that goes on. */
  lemma FrameConcludes(b: Backend)
    requires b.Driving() && b.conv.nextId < U64_MAX
    ensures match b.Step()
            case Again(next) =>
              && next.received == b.received + 1 && next.conv.nextId == b.conv.nextId
              && Concludes(b.world.script, b.received) == Concludes(next.world.script, next.received)
              && next.world.script == b.world.script[1..]
            case Over(ran) => ran.error.None? <==> Concludes(b.world.script, b.received)
  {
  }

  lemma {:induction false} DriveConcludes(b: Backend)
    requires b.Driving() && b.conv.nextId < U64_MAX
    ensures b.Drive().error.None? <==> Concludes(b.world.script, b.received)
    decreases 129 - b.received
  {
    StepKeeps(b);
    FrameConcludes(b);
    if b.Step().Again? {
      DriveConcludes(b.Step().backend);
    }
  }

  lemma StartConcludes(b: Backend)
    requires b.Inv() && (b.conv.state.Idle? || b.conv.state.Failed?)
    ensures match b.Start()
            case Again(next) =>
              && next.received == 0 && next.conv.nextId == b.conv.nextId
              && (GoesAlong(b.world.script, !b.live) <==> Concludes(next.world.script, 0))
            case Over(ran) => ran.error.Some? && !GoesAlong(b.world.script, !b.live)
  {
  }

  lemma BeginConcludes(b: Backend)
    requires b.Inv() && (b.conv.state.Idle? || b.conv.state.Failed?) && b.conv.nextId < U64_MAX
    ensures b.BeginReauth().error.None? <==> GoesAlong(b.world.script, !b.live)
  {
    StartKeeps(b);
    StartConcludes(b);
    if b.Start().Again? {
      DriveConcludes(b.Start().backend);
    }
  }

  lemma BeginIsRefused(b: Backend)
    requires !b.conv.state.Idle? && !b.conv.state.Failed?
    ensures b.BeginReauth().error.Some?
  {
  }

  /** The transaction a resume opens reports an error exactly if its worker does not go along. */
  lemma ResumeConcludes(l: Locker)
    requires l.Settled() && l.lock.Locked? && SafeScript(l.client.world.script) && l.client.conv.nextId < U64_MAX
    ensures l.CancelForLifecycle().locker.client.BeginReauth().error.None? <==> Resumes(l)
  {
    QuietFits(l);
    var quiet := l.CancelForLifecycle().locker.client;
    CancelSettles(l);
    assert l.client.conv.NeedsCancel() ==> !quiet.live;
    if quiet.conv.state.Idle? || quiet.conv.state.Failed? {
      BeginConcludes(quiet);
    } else {
      BeginIsRefused(quiet);
    }
  }

  /**
   * Resuming is answered exactly if the lock is not held or its worker goes along: no worker was lost
   * before, spawn and begin succeed, and behind its messages the worker asks something or ends with an
   * outcome and a clean exit.
   */
  lemma ResumeIsAnswered(l: Locker)
    requires Lasting(l, 1)
    ensures var Lifecycle(after, batch) := l.ResumeAfterSleep();
      (batch.Some? <==> Resumes(l)) && (batch.Some? ==> Uses(l, after))
  {
    if l.lock.Locked? {
      QuietFits(l);
      ResumeConcludes(l);
      var quiet := l.CancelForLifecycle().locker;
      BeginFits(quiet.client);
      var ran := quiet.client.BeginReauth();
      CollectUses(quiet.(client := ran.backend, auth := quiet.auth.Reset()));
    }
  }

  // ---------------------------------------------------------------------------
  // Whole runs

  datatype Command = Asks(request: Request) | Sleeps | Wakes | Acquires | Fails | Releases | Unlocks

  function Next(l: Locker, command: Command): Locker {
    match command
    case Asks(request) => l.Handle(request).locker
    case Sleeps => l.PrepareForSleep().locker
    case Wakes => l.ResumeAfterSleep().locker
    case Acquires => l.MarkAcquired().locker
    case Fails => l.MarkFailed().locker
    case Releases => l.MarkReleased().locker
    case Unlocks => if l.BeginUnlock().Some? then l.BeginUnlock().value else l
  }

  predicate Delivers(l: Locker, command: Command) {
    match command
    case Asks(request) => l.Handle(request).batch.Some?
    case Sleeps => l.PrepareForSleep().batch.Some?
    case Wakes => l.ResumeAfterSleep().batch.Some?
    case Acquires => l.MarkAcquired().events.Some?
    case Fails => l.MarkFailed().events.Some?
    case Releases => l.MarkReleased().events.Some?
    case Unlocks => l.BeginUnlock().Some?
  }

  /** When a command is to be answered by a batch: what it depends on besides the PAM workers. */
  predicate Due(l: Locker, command: Command) {
    match command
    case Asks(_) | Sleeps => true
    case Wakes => Resumes(l)
    case Acquires => l.lock.Acquiring?
    case Fails => !l.lock.LockBroken? && !l.lock.Released?
    case Releases => l.lock.Unlocking?
    case Unlocks => l.lock.Locked? && l.auth.authentication.Authenticated?
  }

  /** A resume that cannot be answered is fatal; a refused lock transition is not. */
  predicate IsFatal(l: Locker, command: Command) {
    command.Wakes? && !Delivers(l, command)
  }

  /** Every command is answered exactly when due, up to the first resume that is not. */
  ghost predicate Served(l: Locker, commands: seq<Command>)
    decreases |commands|
  {
    commands == [] ||
    (&& (Delivers(l, commands[0]) <==> Due(l, commands[0]))
     && (IsFatal(l, commands[0]) || Served(Next(l, commands[0]), commands[1..])))
  }

  lemma MarkLasts(l: Locker, command: Command, left: nat)
    requires Lasting(l, left + 1) && (command.Acquires? || command.Fails? || command.Releases? || command.Unlocks?)
    ensures Delivers(l, command) <==> Due(l, command)
    ensures Lasting(Next(l, command), left)
  {
  }

  lemma CommandLasts(l: Locker, command: Command, left: nat)
    requires Lasting(l, left + 1)
    ensures Delivers(l, command) <==> Due(l, command)
    ensures IsFatal(l, command) || Lasting(Next(l, command), left)
  {
    match command
    case Asks(request) => RequestsAreAnswered(l, request); HandleAccounts(l, request);
    case Sleeps => SleepIsAnswered(l); PrepareAccounts(l);
    case Wakes => ResumeIsAnswered(l); ResumeAccounts(l);
    case _ => MarkLasts(l, command, left);
  }

  /**
   * Over any run of requests, sleep cycles and lock transitions, as long as there is room for it: every
   * request and sleep preparation is answered by a batch, every lock transition that is allowed is
   * announced, and the controller ends only where a resume opens a transaction that reports an error.
   */
  lemma {:induction false} LockerEndures(l: Locker, commands: seq<Command>)
    requires Lasting(l, |commands|)
    ensures Served(l, commands)
    decreases |commands|
  {
    if commands != [] {
      CommandLasts(l, commands[0], |commands| - 1);
      if !IsFatal(l, commands[0]) {
        LockerEndures(Next(l, commands[0]), commands[1..]);
      }
    }
  }

  /** From the connection on there is room for more than sixty-eight million million commands. */
  lemma EnduresFromConnection(user: Text, script: seq<Reply>, commands: seq<Command>)
    requires user != [] && SafeScript(script) && |commands| * MAX_BATCH_EVENTS <= MAX_SAFE_INTEGER
    ensures Served(Locker(Connected(user, script), FreshPublic(Core.Idle), Acquiring), commands)
  {
    ConnectedIsSettled(user, script);
    LockerEndures(Locker(Connected(user, script), FreshPublic(Core.Idle), Acquiring), commands);
  }

  /** A resume can end the controller: here the worker is gone by the time it is handed the transaction. */
  lemma LostWorkerEndsResume()
    ensures var held := Next(Locker(Connected([97], []), FreshPublic(Core.Idle), Acquiring), Acquires);
      && held.lock.Locked? && Lasting(held, 1)
      && IsFatal(held, Wakes)
  {
    var l := Locker(Connected([97], []), FreshPublic(Core.Idle), Acquiring);
    ConnectedIsSettled([97], []);
    CommandLasts(l, Acquires, 1);
    ResumeIsAnswered(Next(l, Acquires));
  }
}

/** The reauthentication backend driving one PAM worker process per transaction (fomalhaut-pam, backend.rs). */
module PamBackend {
  import opened Prelude
  import opened Core
  import Ipc

  datatype WorkerFailure =
    | SpawnFailed
    | TimedOut
    | Lost
    | Malformed
    | ExitTimedOut
    | BadExitStatus
    | ReaderPanicked

  /** What the process boundary answers to one interaction: spawn, write, receive or wait. */
  datatype Reply =
    | Done
    | Arrived(message: Ipc.WorkerMessage)
    | Broken(failure: WorkerFailure)

  /** One interaction with the worker processes, as it happened. */
  datatype Act =
    | Spawned(ok: bool)
    | SentBegin(ok: bool)
    | SentAnswer(prompt: Ipc.U64, response: Text, ok: bool)
    | Received(frame: Option<Ipc.WorkerMessage>)
    | Finished(ok: bool)
    | Terminated

  /** Everything the processes will still answer, and everything done to them so far. */
  datatype World = World(script: seq<Reply>, log: seq<Act>) {
    function Reply(): Reply {
      if script == [] then Broken(Lost) else script[0]
    }

    function Log(act: Act): World {
      this.(log := log + [act])
    }

    function Advance(act: Act): World {
      World(if script == [] then [] else script[1..], log + [act])
    }
  }

  function CoreKind(kind: Ipc.WorkerPromptKind): PromptKind {
    match kind
    case SecretPrompt => Secret
    case VisiblePrompt => Visible
  }

  function CoreLevel(level: Ipc.WorkerMessageLevel): MessageLevel {
    match level
    case InfoLevel => Info
    case ErrorLevel => Error
  }

  /** The conversion of a conversation error into a backend error. */
  function Reported(error: Option<CoreError>): Option<BackendError> {
    match error
    case None => None
    case Some(core) => Some(CoreFailure(core))
  }

  /** A backend after one operation, with the error it reported, if any. */
  datatype Ran = Ran(backend: Backend, error: Option<BackendError>)

  /** A step either leaves the transaction with the receive loop or ends the operation. */
  datatype Turn = Again(backend: Backend) | Over(ran: Ran) {
    function Drive(): Ran {
      match this
      case Again(next) => next.Drive()
      case Over(ran) => ran
    }
  }

  /** The abstract value of a `PamReauthBackend`. */
  datatype Backend = Backend(
    user: Text, conv: Conversation, live: bool, workerPrompt: Option<Ipc.U64>, received: nat, world: World)
  {
    function Terminate(): Backend {
      if live then this.(live := false, world := world.Log(Terminated)) else this
    }

    function FailWorker(): Backend {
      Terminate().(workerPrompt := None, conv := conv.Fail())
    }

    function FinishWorker(): Ran {
      if !live then
        Ran(this.(conv := conv.Disconnect()), Some(Unavailable))
      else
        var ok := !world.Reply().Broken?;
        var waited := this.(live := false, world := world.Advance(Finished(ok)));
        if ok then
          Ran(waited.(workerPrompt := None), None)
        else
          Ran(waited.(world := waited.world.Log(Terminated), conv := conv.Disconnect()), Some(Unavailable))
    }

    /** The reaction to one received worker frame. */
    function HandleFrame(message: Ipc.WorkerMessage): Turn {
      match message
      case Ready =>
        Over(Ran(FailWorker(), Some(Protocol)))
      case PromptFrame(prompt, kind, text) =>
        if workerPrompt.Some? then
          Over(Ran(FailWorker(), Some(Protocol)))
        else
          var did := conv.EmitPrompt(CoreKind(kind), text);
          if did.error.Some? then
            Over(Ran(this.(conv := did.conv).FailWorker(), Some(Protocol)))
          else
            Over(Ran(this.(conv := did.conv, workerPrompt := Some(prompt)), None))
      case MessageFrame(level, text) =>
        var did := conv.EmitMessage(CoreLevel(level), text);
        if did.error.Some? then
          Over(Ran(this.(conv := did.conv).FailWorker(), Some(Protocol)))
        else
          Again(this.(conv := did.conv))
      case AuthenticatedFrame =>
        var finished := FinishWorker();
        if finished.error.Some? then
          Over(finished)
        else if user == [] then
          Over(Ran(finished.backend, Some(CoreFailure(EmptyIdentity))))
        else
          Over(Settle(finished.backend, finished.backend.conv.Succeed(user)))
      case RejectedFrame =>
        var finished := FinishWorker();
        if finished.error.Some? then
          Over(finished)
        else
          Over(Settle(finished.backend, finished.backend.conv.Reject()))
      case FatalFrame =>
        Over(Ran(FailWorker(), Some(Service)))
    }

    /** One receive from a live worker. */
    function Receive(): Turn {
      var reply := world.Reply();
      if reply.Arrived? then
        this.(world := world.Advance(Received(Some(reply.message)))).HandleFrame(reply.message)
      else
        Over(Ran(this.(world := world.Advance(Received(None))).FailWorker(),
                 Some(if reply == Broken(Malformed) then Protocol else Unavailable)))
    }

    /** One iteration of the receive loop: it counts one frame against the transaction budget. */
    function Step(): (turn: Turn)
      ensures live && received < Ipc.MAX_TRANSACTION_FRAMES ==> turn == this.(received := received + 1).Receive()
    {
      var counted := this.(received := received + 1);
      if counted.received > Ipc.MAX_TRANSACTION_FRAMES then
        Over(Ran(counted.FailWorker(), Some(Protocol)))
      else if !live then
        Over(Ran(counted.FailWorker(), Some(Unavailable)))
      else
        counted.Receive()
    }

    function Drive(): Ran
      decreases 129 - received
    {
      match Step()
      case Again(next) => next.Drive()
      case Over(ran) => ran
    }

    /** Hands the transaction to a live worker. */
    function SendBegin(): Turn {
      var ok := !world.Reply().Broken?;
      var sent := this.(world := world.Advance(SentBegin(ok)));
      if ok then Again(sent) else Over(Ran(sent.FailWorker(), Some(Unavailable)))
    }

    /** Opens a transaction, up to its first receive; a missing worker is spawned first. */
    function Start(): Turn {
      var did := conv.Begin();
      if did.error.Some? then
        Over(Ran(this, Reported(did.error)))
      else
        var begun := this.(conv := did.conv, workerPrompt := None, received := 0);
        var spawned := if live then begun
                       else var ok := !world.Reply().Broken?;
                            begun.(live := ok, world := world.Advance(Spawned(ok)));
        if !spawned.live then
          Over(Ran(spawned.(conv := did.conv.Fail()), Some(Unavailable)))
        else
          spawned.SendBegin()
    }

    function BeginReauth(): Ran {
      Start().Drive()
    }

    /** Answers the active prompt, up to the next receive. */
    function Answer(prompt: nat, response: Text): Turn {
      var did := conv.BeginResponse(prompt);
      var answered := this.(conv := did.conv, workerPrompt := None);
      if did.error.Some? then
        Over(Ran(this, Reported(did.error)))
      else if workerPrompt.None? then
        Over(Ran(answered.FailWorker(), Some(Protocol)))
      else if !live then
        Over(Ran(answered.FailWorker(), Some(Unavailable)))
      else
        var reply := world.Reply();
        var sent := answered.(world := world.Advance(SentAnswer(workerPrompt.value, response, !reply.Broken?)));
        if reply.Broken? then
          Over(Ran(sent.FailWorker(), Some(if reply.failure.Malformed? then Protocol else Unavailable)))
        else
          Again(sent)
    }

    function Respond(prompt: nat, response: Text): Ran {
      Answer(prompt, response).Drive()
    }

    function Cancel(): Ran {
      var did := conv.BeginCancel();
      if did.error.Some? then
        Ran(this, Reported(did.error))
      else
        var stopped := this.(conv := did.conv).Terminate().(workerPrompt := None);
        Settle(stopped, stopped.conv.FinishCancel())
    }

    /** What holds between operations. */
    ghost predicate Inv() {
      match this
      case Backend(user, conv, live, workerPrompt, received, world) =>
      && user != []
      && conv.Sound()
      && (conv.Waiting() <==> workerPrompt.Some?)
      && (conv.Waiting() ==> live && Meter(world.log).frames <= received <= Ipc.MAX_TRANSACTION_FRAMES)
      && (conv.Waiting() ==> Serving(world.log))
      && (conv.state.Failed? || conv.state.Disconnected? || conv.state.Authenticated? ==> !live)
      && !conv.state.Authenticating? && !conv.state.Cancelling?
      && (conv.state.Idle? && live ==> Meter(world.log).begins == 0)
      && Metered(world.log)
    }

    /** What holds whenever the receive loop goes round. */
    ghost predicate Driving() {
      match this
      case Backend(user, conv, live, workerPrompt, received, world) =>
      && user != []
      && conv.Sound() && conv.state.Authenticating?
      && live && workerPrompt.None?
      && Metered(world.log) && Serving(world.log)
      && Meter(world.log).frames <= received <= Ipc.MAX_TRANSACTION_FRAMES
    }
  }

  function Settle(backend: Backend, did: Did): Ran {
    Ran(backend.(conv := did.conv), Reported(did.error))
  }

  /** A backend just connected: its first worker is prepared and no transaction has begun. */
  function Connected(user: Text, script: seq<Reply>): Backend {
    Backend(user, IDLE_CONVERSATION, true, None, 0, World(script, [Spawned(true)]))
  }

  // ---------------------------------------------------------------------------
  // Reading the log

  /** Begins sent to the newest worker, and frames received since the newest begin. */
  datatype Count = Count(begins: nat, frames: nat)

  ghost function Meter(log: seq<Act>): Count {
    if log == [] then Count(0, 0)
    else
      var before := Meter(log[..|log| - 1]);
      match log[|log| - 1]
      case Spawned(true) => before.(begins := 0)
      case SentBegin(_) => Count(before.begins + 1, 0)
      case Received(Some(_)) => before.(frames := before.frames + 1)
      case _ => before
  }

  /** At every moment the newest worker got at most one begin, and its transaction at most 128 frames. */
  ghost predicate Metered(log: seq<Act>) {
    log == [] ||
    (Metered(log[..|log| - 1]) && Meter(log).begins <= 1 && Meter(log).frames <= Ipc.MAX_TRANSACTION_FRAMES)
  }

  ghost predicate NoBegin(log: seq<Act>, from: nat) {
    forall i :: from <= i < |log| ==> !log[i].SentBegin?
  }

  /** The newest worker has been handed its transaction. */
  ghost predicate Serving(log: seq<Act>) {
    log != [] &&
    match log[|log| - 1]
    case Spawned(true) => false
    case SentBegin(ok) => ok
    case _ => Serving(log[..|log| - 1])
  }

  /** The worker serving the newest transaction sent an authenticated frame and then exited cleanly. */
  ghost predicate EndsInCleanSuccess(log: seq<Act>) {
    && |log| >= 2
    && log[|log| - 2] == Received(Some(Ipc.AuthenticatedFrame))
    && log[|log| - 1] == Finished(true)
    && Serving(log)
  }

  /** A clean success was reported after the log stood at `before`. */
  ghost predicate FreshSuccess(before: seq<Act>, after: seq<Act>) {
    before <= after && |after| >= |before| + 2 && EndsInCleanSuccess(after)
  }

  /** The i-th interaction handed the newest worker its transaction, and none was handed over since. */
  ghost predicate HandedAt(log: seq<Act>, i: nat) {
    && i < |log| && log[i] == SentBegin(true)
    && forall j :: i < j < |log| ==> log[j] != Spawned(true) && !log[j].SentBegin?
  }

  lemma {:induction false} ServingWasHanded(log: seq<Act>) returns (i: nat)
    requires Serving(log)
    ensures HandedAt(log, i)
  {
    if log[|log| - 1] == SentBegin(true) {
      i := |log| - 1;
    } else {
      i := ServingWasHanded(log[..|log| - 1]);
    }
  }

  lemma MeterSnoc(log: seq<Act>, act: Act)
    ensures Meter(log + [act]) ==
            match act
            case Spawned(true) => Meter(log).(begins := 0)
            case SentBegin(_) => Count(Meter(log).begins + 1, 0)
            case Received(Some(_)) => Meter(log).(frames := Meter(log).frames + 1)
            case _ => Meter(log)
    ensures Metered(log + [act]) <==>
            Metered(log) && Meter(log + [act]).begins <= 1
            && Meter(log + [act]).frames <= Ipc.MAX_TRANSACTION_FRAMES
    ensures Serving(log + [act]) <==>
            match act
            case Spawned(true) => false
            case SentBegin(ok) => ok
            case _ => Serving(log)
  {
    assert (log + [act])[..|log|] == log;
  }

  /** How one operation may change a backend, as its controller needs to know it. */
  ghost predicate Follows(before: Backend, ran: Ran) {
    match ran
    case Ran(after, error) =>
    && after.Inv()
    && after.user == before.user
    && Advances(before.conv, after.conv)
    && before.world.log <= after.world.log
    && (after.conv.state.Authenticated? ==>
          after == before || (error.None? && FreshSuccess(before.world.log, after.world.log)))
    && (error.None? ==> after.conv.Tells())
  }

  lemma TerminateMeters(b: Backend)
    requires Metered(b.world.log)
    ensures var t := b.Terminate();
            && !t.live && t.conv == b.conv && b.world.log <= t.world.log
            && Metered(t.world.log) && NoBegin(t.world.log, |b.world.log|)
            && Meter(t.world.log) == Meter(b.world.log)
            && (Serving(b.world.log) ==> Serving(t.world.log))
  {
    if b.live {
      MeterSnoc(b.world.log, Terminated);
    }
  }

  lemma FinishMeters(b: Backend)
    requires Metered(b.world.log) && b.live
    ensures var f := b.FinishWorker();
            && !f.backend.live && b.world.log <= f.backend.world.log
            && Metered(f.backend.world.log) && NoBegin(f.backend.world.log, |b.world.log|)
            && (f.error.None? ==> f.backend.world.log == b.world.log + [Finished(true)])
            && (Serving(b.world.log) ==> Serving(f.backend.world.log))
  {
    var ok := !b.world.Reply().Broken?;
    MeterSnoc(b.world.log, Finished(ok));
    MeterSnoc(b.world.log + [Finished(ok)], Terminated);
  }

  /** How the receive loop may end. */
  ghost predicate Ends(before: Backend, ran: Ran) {
    match ran
    case Ran(after, error) =>
    && after.Inv()
    && after.user == before.user
    && before.conv.nextId <= after.conv.nextId
    && (after.conv.Waiting() ==> after.conv.JustPrompted())
    && before.world.log <= after.world.log
    && NoBegin(after.world.log, |before.world.log|)
    && (after.conv.state.Authenticated? ==>
          FreshSuccess(before.world.log, after.world.log))
    && (error.None? ==> after.conv.Tells())
    && (error.Some? ==> after.conv.state.Failed? || after.conv.state.Disconnected?)
  }

  /** `got` is what became of `before` within one loop iteration, still in the middle of it. */
  ghost predicate Amid(before: Backend, got: Backend) {
    match got
    case Backend(user, conv, _, _, _, World(_, log)) =>
    && user == before.user != []
    && conv.Sound()
    && before.conv.nextId <= conv.nextId
    && before.world.log <= log
    && NoBegin(log, |before.world.log|)
    && Metered(log) && Serving(log)
  }

  lemma FailEnds(before: Backend, got: Backend, error: BackendError)
    requires Amid(before, got)
    ensures Ends(before, Ran(got.FailWorker(), Some(error)))
  {
    TerminateMeters(got);
  }

  lemma FinishEnds(before: Backend, got: Backend, message: Ipc.WorkerMessage)
    requires Amid(before, got) && got.live && got.conv.state.Authenticating?
    requires |got.world.log| > |before.world.log| && got.world.log[|got.world.log| - 1] == Received(Some(message))
    requires got.workerPrompt.None?
    requires message.AuthenticatedFrame? || message.RejectedFrame?
    ensures got.HandleFrame(message).Over? && Ends(before, got.HandleFrame(message).ran)
  {
    FinishMeters(got);
  }

  lemma PromptEnds(before: Backend, got: Backend, message: Ipc.WorkerMessage)
    requires Amid(before, got) && got.Driving() && message.PromptFrame?
    ensures got.HandleFrame(message).Over? && Ends(before, got.HandleFrame(message).ran)
  {
    var did := got.conv.EmitPrompt(CoreKind(message.kind), message.message);
    if did.error.Some? {
      FailEnds(before, got, Protocol);
    }
  }

  lemma HandleKeeps(before: Backend, got: Backend, message: Ipc.WorkerMessage)
    requires Amid(before, got) && got.Driving()
    requires |got.world.log| > |before.world.log| && got.world.log[|got.world.log| - 1] == Received(Some(message))
    ensures Moves(before, got.received, got.HandleFrame(message))
  {
    match message
    case Ready => FailEnds(before, got, Protocol);
    case PromptFrame(_, _, _) => PromptEnds(before, got, message);
    case MessageFrame(_, _) =>
    case AuthenticatedFrame => FinishEnds(before, got, message);
    case RejectedFrame => FinishEnds(before, got, message);
    case FatalFrame => FailEnds(before, got, Service);
  }

  /** One loop iteration goes round with `received` frames counted, or ends in a settled backend. */
  ghost predicate Moves(before: Backend, received: nat, turn: Turn) {
    match turn
    case Again(next) => next.Driving() && next.received == received && Amid(before, next)
    case Over(ran) => Ends(before, ran)
  }

  /** A backend that has just received a frame, and has not yet reacted to it. */
  function AfterFrame(b: Backend, message: Ipc.WorkerMessage): Backend {
    b.(received := b.received + 1, world := b.world.Advance(Received(Some(message))))
  }

  lemma FrameIsAmid(b: Backend, message: Ipc.WorkerMessage)
    requires b.Driving() && b.received < Ipc.MAX_TRANSACTION_FRAMES
    ensures var got := AfterFrame(b, message);
      && Amid(b, got) && got.Driving()
      && got.world.log == b.world.log + [Received(Some(message))]
  {
    MeterSnoc(b.world.log, Received(Some(message)));
  }

  lemma StepHandles(b: Backend)
    requires b.live && b.received < Ipc.MAX_TRANSACTION_FRAMES && b.world.Reply().Arrived?
    ensures b.Step() == AfterFrame(b, b.world.Reply().message).HandleFrame(b.world.Reply().message)
  {
  }

  lemma StepReceives(b: Backend)
    requires b.Driving() && b.received < Ipc.MAX_TRANSACTION_FRAMES && b.world.Reply().Arrived?
    ensures Moves(b, b.received + 1, b.Step())
  {
    var message := b.world.Reply().message;
    FrameIsAmid(b, message);
    StepHandles(b);
    HandleKeeps(b, AfterFrame(b, message), message);
  }

  /** A prompt is shown exactly if an identifier is left for it; otherwise it fails the transaction. */
  lemma ExhaustionFails(b: Backend)
    requires b.Driving() && b.received < Ipc.MAX_TRANSACTION_FRAMES
    requires b.world.Reply().Arrived? && b.world.Reply().message.PromptFrame?
    ensures b.Step().Over?
    ensures var Ran(after, error) := b.Step().ran;
      && (after.conv.state.Failed? <==> b.conv.nextId >= U64_MAX)
      && (after.conv.Waiting() <==> b.conv.nextId < U64_MAX)
      && (error.Some? <==> b.conv.nextId >= U64_MAX)
  {
    StepHandles(b);
  }

  lemma StepLoses(b: Backend)
    requires b.Driving()
    requires b.received == Ipc.MAX_TRANSACTION_FRAMES || !b.world.Reply().Arrived?
    ensures b.Step().Over? && Ends(b, b.Step().ran)
  {
    var counted := b.(received := b.received + 1);
    var got := if b.received == Ipc.MAX_TRANSACTION_FRAMES then counted
               else counted.(world := b.world.Advance(Received(None)));
    MeterSnoc(b.world.log, Received(None));
    FailEnds(b, got, b.Step().ran.error.value);
  }

  lemma StepKeeps(b: Backend)
    requires b.Driving()
    ensures Moves(b, b.received + 1, b.Step())
  {
    if b.received < Ipc.MAX_TRANSACTION_FRAMES && b.world.Reply().Arrived? {
      StepReceives(b);
    } else {
      StepLoses(b);
    }
  }

  lemma {:induction false} DriveKeeps(b: Backend)
    requires b.Driving()
    ensures Ends(b, b.Drive())
    decreases 129 - b.received
  {
    StepKeeps(b);
    if b.Step().Again? {
      DriveKeeps(b.Step().backend);
    }
  }

  /** How a call may hand its transaction to the receive loop, or end without it. */
  ghost predicate Opens(before: Backend, turn: Turn) {
    match turn
    case Again(next) => next.Driving() && Reaches(before, next)
    case Over(ran) => Follows(before, ran)
  }

  ghost predicate Reaches(before: Backend, got: Backend) {
    match got
    case Backend(user, conv, _, _, _, World(_, log)) =>
    && user == before.user
    && before.conv.nextId <= conv.nextId
    && before.world.log <= log
  }

  lemma OpenedFollows(before: Backend, turn: Turn)
    requires Opens(before, turn)
    ensures Follows(before, turn.Drive())
  {
    if turn.Again? {
      DriveKeeps(turn.backend);
    }
  }

  lemma SendBeginKeeps(before: Backend, b: Backend)
    requires before.Inv() && before.conv.nextId <= b.conv.nextId && b.conv.Sound()
    requires b.user == before.user && before.world.log <= b.world.log && Metered(b.world.log)
    requires b.live && b.workerPrompt.None? && b.received == 0 && b.conv.state.Authenticating?
    requires Meter(b.world.log).begins == 0
    ensures Opens(before, b.SendBegin())
  {
    var ok := !b.world.Reply().Broken?;
    var sent := b.(world := b.world.Advance(SentBegin(ok)));
    MeterSnoc(b.world.log, SentBegin(ok));
    TerminateMeters(sent);
  }

  lemma StartKeeps(b: Backend)
    requires b.Inv()
    ensures Opens(b, b.Start())
  {
    if b.conv.state.Idle? || b.conv.state.Failed? {
      var begun := b.(conv := b.conv.Begin().conv, workerPrompt := None, received := 0);
      if b.live {
        SendBeginKeeps(b, begun);
      } else {
        var ok := !b.world.Reply().Broken?;
        MeterSnoc(b.world.log, Spawned(ok));
        if ok {
          SendBeginKeeps(b, begun.(live := true, world := b.world.Advance(Spawned(true))));
        }
      }
    }
  }

  lemma BeginKeeps(b: Backend)
    requires b.Inv()
    ensures Follows(b, b.BeginReauth())
  {
    StartKeeps(b);
    OpenedFollows(b, b.Start());
  }

  lemma AnswerKeeps(b: Backend, prompt: nat, response: Text)
    requires b.Inv()
    ensures Opens(b, b.Answer(prompt, response))
    ensures match b.Answer(prompt, response)
            case Again(next) => NoBegin(next.world.log, |b.world.log|)
            case Over(ran) => NoBegin(ran.backend.world.log, |b.world.log|)
  {
    var did := b.conv.BeginResponse(prompt);
    if did.error.None? {
      var reply := b.world.Reply();
      var act := SentAnswer(b.workerPrompt.value, response, !reply.Broken?);
      var sent := b.(conv := did.conv, workerPrompt := None, world := b.world.Advance(act));
      MeterSnoc(b.world.log, act);
      TerminateMeters(sent);
    }
  }

  lemma RespondKeeps(b: Backend, prompt: nat, response: Text)
    requires b.Inv()
    ensures Follows(b, b.Respond(prompt, response))
    ensures NoBegin(b.Respond(prompt, response).backend.world.log, |b.world.log|)
  {
    AnswerKeeps(b, prompt, response);
    var turn := b.Answer(prompt, response);
    OpenedFollows(b, turn);
    if turn.Again? {
      DriveKeeps(turn.backend);
    }
  }

  lemma CancelKeeps(b: Backend)
    requires b.Inv()
    ensures Follows(b, b.Cancel())
    ensures NoBegin(b.Cancel().backend.world.log, |b.world.log|)
    ensures b.conv.NeedsCancel() ==> b.Cancel().error.None? && b.Cancel().backend.conv.state.Idle?
    ensures !b.conv.NeedsCancel() ==> b.Cancel().error.Some? && b.Cancel().backend == b
  {
    TerminateMeters(b.(conv := b.conv.BeginCancel().conv));
  }

  // ---------------------------------------------------------------------------
  // Whole runs

  datatype Call =
    | CallBegin
    | CallRespond(prompt: nat, response: Text)
    | CallCancel
    | CallNextEvent

  function Apply(b: Backend, call: Call): Ran {
    match call
    case CallBegin => b.BeginReauth()
    case CallRespond(prompt, response) => b.Respond(prompt, response)
    case CallCancel => b.Cancel()
    case CallNextEvent => Settle(b, b.conv.NextEvent())
  }

  function Run(b: Backend, calls: seq<Call>): Backend
    decreases |calls|
  {
    if calls == [] then b else Run(Apply(b, calls[0]).backend, calls[1..])
  }

  /**
   * Over every sequence of calls and every behaviour of the worker processes: the backend waits
   * exactly when it holds a worker prompt and an active core prompt, only a waiting or idle
   * backend keeps a worker, every worker gets at most one begin, every transaction receives
   * at most 128 frames, and no call returns in the middle of an authentication or a cancellation.
   */
  lemma {:induction false} BackendInvariant(b: Backend, calls: seq<Call>)
    requires b.Inv()
    ensures Run(b, calls).Inv()
    ensures b.world.log <= Run(b, calls).world.log
    decreases |calls|
  {
    if calls != [] {
      match calls[0] {
        case CallBegin => BeginKeeps(b);
        case CallRespond(prompt, response) => RespondKeeps(b, prompt, response);
        case CallCancel => CancelKeeps(b);
        case CallNextEvent =>
      }
      BackendInvariant(Apply(b, calls[0]).backend, calls[1..]);
    }
  }

  lemma ConnectedIsSettled(user: Text, script: seq<Reply>)
    requires user != []
    ensures Connected(user, script).Inv()
  {
    assert [] + [Spawned(true)] == [Spawned(true)];
    MeterSnoc([], Spawned(true));
  }

  /** The log of any run keeps both budgets at every moment, not only at its end. */
  lemma {:induction false} MeteredPrefix(log: seq<Act>, k: nat)
    requires Metered(log) && k <= |log|
    ensures Metered(log[..k])
    ensures Meter(log[..k]).begins <= 1 && Meter(log[..k]).frames <= Ipc.MAX_TRANSACTION_FRAMES
    decreases |log|
  {
    if k < |log| {
      MeteredPrefix(log[..|log| - 1], k);
      assert log[..|log| - 1][..k] == log[..k];
    } else {
      assert log[..k] == log;
    }
  }

  // ---------------------------------------------------------------------------
  // The mutable objects

  /** A frame within the budget is received from a live worker. */
  lemma CountedReceives(b: Backend, counted: Backend)
    requires counted == b.(received := b.received + 1)
    requires b.live && counted.received <= Ipc.MAX_TRANSACTION_FRAMES
    ensures b.Step() == counted.Receive()
  {
  }

  /** The boundary to worker processes: a script of answers and a log of what was done. */
  class Workers {
    var script: seq<Reply>
    ghost var log: seq<Act>

    ghost function Model(): World
      reads this
    {
      World(script, log)
    }

    constructor (script: seq<Reply>)
      ensures Model() == World(script, [Spawned(true)])
    {
      this.script, log := script, [Spawned(true)];
    }

    /** Takes the next answer of the processes for an interaction that `ok`, `bad` describe. */
    method Interact(ghost ok: Act, ghost bad: Act) returns (reply: Reply)
      modifies this
      ensures reply == old(Model()).Reply()
      ensures Model() == old(Model()).Advance(if reply.Broken? then bad else ok)
    {
      reply := if script == [] then Broken(Lost) else script[0];
      script := if script == [] then [] else script[1..];
      log := log + [if reply.Broken? then bad else ok];
    }

    method Receive() returns (reply: Reply)
      modifies this
      ensures reply == old(Model()).Reply()
      ensures Model() == old(Model()).Advance(Received(if reply.Arrived? then Some(reply.message) else None))
    {
      reply := if script == [] then Broken(Lost) else script[0];
      script := if script == [] then [] else script[1..];
      log := log + [Received(if reply.Arrived? then Some(reply.message) else None)];
    }

    method Terminate()
      modifies this
      ensures Model() == old(Model()).Log(Terminated)
    {
      log := log + [Terminated];
    }
  }

  class PamReauthBackend {
    const user: Text
    const conversation: AuthConversation
    const workers: Workers
    var live: bool
    var workerPrompt: Option<Ipc.U64>
    var receivedFrames: nat

    ghost function Model(): Backend
      reads this, conversation, workers
    {
      Backend(user, conversation.Model(), live, workerPrompt, receivedFrames, workers.Model())
    }

    constructor (user: Text, script: seq<Reply>)
      ensures Model() == Connected(user, script)
      ensures fresh(conversation) && fresh(workers)
    {
      this.user := user;
      conversation := new AuthConversation();
      workers := new Workers(script);
      live, workerPrompt, receivedFrames := true, None, 0;
    }

    method BeginReauth() returns (error: Option<BackendError>)
      modifies this, conversation, workers
      ensures Ran(Model(), error) == old(Model()).BeginReauth()
    {
      var refused := conversation.Begin();
      if refused.Some? {
        return Reported(refused);
      }
      workerPrompt := None;
      receivedFrames := 0;
      if !live {
        var spawned := workers.Interact(Spawned(true), Spawned(false));
        if spawned.Broken? {
          conversation.Fail();
          return Some(Unavailable);
        }
        live := true;
      }
      var sent := workers.Interact(SentBegin(true), SentBegin(false));
      if sent.Broken? {
        FailWorker();
        return Some(Unavailable);
      }
      error := DriveWorker();
    }

    method Respond(prompt: nat, response: Text) returns (error: Option<BackendError>)
      modifies this, conversation, workers
      ensures Ran(Model(), error) == old(Model()).Respond(prompt, response)
    {
      var refused := conversation.BeginResponse(prompt);
      if refused.Some? {
        return Reported(refused);
      }
      var taken := workerPrompt;
      workerPrompt := None;
      if taken.None? {
        FailWorker();
        return Some(Protocol);
      }
      if !live {
        FailWorker();
        return Some(Unavailable);
      }
      var sent := workers.Interact(SentAnswer(taken.value, response, true), SentAnswer(taken.value, response, false));
      if sent.Broken? {
        FailWorker();
        return Some(if sent.failure.Malformed? then Protocol else Unavailable);
      }
      error := DriveWorker();
    }

    method DriveWorker() returns (error: Option<BackendError>)
      modifies this, conversation, workers
      ensures Ran(Model(), error) == old(Model()).Drive()
    {
      while true
        invariant Model().Drive() == old(Model()).Drive()
        decreases 129 - receivedFrames
      {
        var over;
        over, error := Step();
        if over {
          return;
        }
      }
    }

    /** One iteration of the receive loop; `over` says whether it was the last. */
    method Step() returns (over: bool, error: Option<BackendError>)
      modifies this, conversation, workers
      ensures old(Model()).Step() == if over then Over(Ran(Model(), error)) else Again(Model())
      ensures !over ==> receivedFrames == old(receivedFrames) + 1 <= Ipc.MAX_TRANSACTION_FRAMES
    {
      receivedFrames := receivedFrames + 1;
      if receivedFrames > Ipc.MAX_TRANSACTION_FRAMES {
        FailWorker();
        return true, Some(Protocol);
      }
      if !live {
        FailWorker();
        return true, Some(Unavailable);
      }
      CountedReceives(old(Model()), Model());
      over, error := Receive();
    }

    method Receive() returns (over: bool, error: Option<BackendError>)
      modifies this, conversation, workers
      ensures old(Model()).Receive() == if over then Over(Ran(Model(), error)) else Again(Model())
      ensures !over ==> receivedFrames == old(receivedFrames)
    {
      var reply := workers.Receive();
      if !reply.Arrived? {
        FailWorker();
        return true, Some(if reply == Broken(Malformed) then Protocol else Unavailable);
      }
      over, error := HandleFrame(reply.message);
    }

    /** The reaction to one received frame; `over` says whether it ends the receive loop. */
    method HandleFrame(message: Ipc.WorkerMessage) returns (over: bool, error: Option<BackendError>)
      modifies this, conversation, workers
      ensures old(Model()).HandleFrame(message) == if over then Over(Ran(Model(), error)) else Again(Model())
      ensures !over ==> receivedFrames == old(receivedFrames)
    {
      match message
      case Ready =>
        FailWorker();
        return true, Some(Protocol);
      case PromptFrame(prompt, kind, text) =>
        if workerPrompt.Some? {
          FailWorker();
          return true, Some(Protocol);
        }
        var refused := conversation.EmitPrompt(CoreKind(kind), text);
        if refused.Some? {
          FailWorker();
          return true, Some(Protocol);
        }
        workerPrompt := Some(prompt);
        return true, None;
      case MessageFrame(level, text) =>
        var refused := conversation.EmitMessage(CoreLevel(level), text);
        if refused.Some? {
          FailWorker();
          return true, Some(Protocol);
        }
        return false, None;
      case AuthenticatedFrame =>
        var failed := FinishWorker();
        if failed.Some? {
          return true, failed;
        }
        if user == [] {
          return true, Some(CoreFailure(EmptyIdentity));
        }
        var refused := conversation.Succeed(user);
        return true, Reported(refused);
      case RejectedFrame =>
        var failed := FinishWorker();
        if failed.Some? {
          return true, failed;
        }
        var refused := conversation.Reject();
        return true, Reported(refused);
      case FatalFrame =>
        FailWorker();
        return true, Some(Service);
    }

    method Cancel() returns (error: Option<BackendError>)
      modifies this, conversation, workers
      ensures Ran(Model(), error) == old(Model()).Cancel()
    {
      var refused := conversation.BeginCancel();
      if refused.Some? {
        return Reported(refused);
      }
      TerminateWorker();
      workerPrompt := None;
      refused := conversation.FinishCancel();
      return Reported(refused);
    }

    method FinishWorker() returns (error: Option<BackendError>)
      modifies this, conversation, workers
      ensures Ran(Model(), error) == old(Model()).FinishWorker()
    {
      if !live {
        conversation.Disconnect();
        return Some(Unavailable);
      }
      live := false;
      var exit := workers.Interact(Finished(true), Finished(false));
      if exit.Broken? {
        workers.Terminate();
        conversation.Disconnect();
        return Some(Unavailable);
      }
      workerPrompt := None;
      return None;
    }

    method FailWorker()
      modifies this, conversation, workers
      ensures Model() == old(Model()).FailWorker()
    {
      TerminateWorker();
      workerPrompt := None;
      conversation.Fail();
    }

    method TerminateWorker()
      modifies this, workers
      ensures Model() == old(Model()).Terminate()
    {
      if live {
        live := false;
        workers.Terminate();
      }
    }
  }
}

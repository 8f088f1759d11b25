/** The backend-neutral serial authentication conversation (fomalhaut-core). */
module Core {
  import opened Prelude

  datatype AuthState =
    | Disconnected
    | Idle
    | Authenticating
    | WaitingForSecret
    | WaitingForVisible
    | Authenticated
    | Cancelling
    | Failed

  datatype PromptKind = Secret | Visible

  datatype MessageLevel = Info | Error

  datatype AuthEvent =
    | Prompt(id: nat, kind: PromptKind, message: Text)
    | Message(level: MessageLevel, text: Text)
    | Succeeded(identity: Text)
    | AuthenticationFailed
    | Cancelled

  /** The operation named by an invalid-state error. */
  datatype Operation =
    | BeginAuthentication
    | RespondToPrompt
    | EmitPromptOp
    | EmitMessageOp
    | CompleteAuthentication
    | CancelAuthentication
    | CompleteCancellation
    | FailAuthentication
    | StartSessionOp
    | CancelSessionOp

  datatype CoreError =
    | InvalidState(operation: Operation, state: AuthState)
    | StalePrompt(expected: Option<nat>, received: nat)
    | NoPendingEvent
    | PromptIdExhausted
    | EmptyIdentity

  /** The failures a login or reauthentication backend reports to its controller. */
  datatype BackendError =
    | CoreFailure(core: CoreError)
    | Unavailable
    | Protocol
    | Service

  /** A conversation after one operation, with the error it reported, if any. */
  datatype Did = Did(conv: Conversation, error: Option<CoreError>)

  function WaitingFor(kind: PromptKind): AuthState {
    match kind
    case Secret => WaitingForSecret
    case Visible => WaitingForVisible
  }

  /** The abstract value of an `AuthConversation`: what each operation does to it. */
  datatype Conversation = Conversation(
    state: AuthState, events: seq<AuthEvent>, active: Option<nat>, nextId: nat)
  {
    predicate Waiting() {
      state.WaitingForSecret? || state.WaitingForVisible?
    }

    predicate NeedsCancel() {
      state.Authenticating? || Waiting() || state.Authenticated?
    }

    function Refuse(operation: Operation): Did {
      Did(this, Some(InvalidState(operation, state)))
    }

    function Begin(): Did {
      if !state.Idle? && !state.Failed? then
        Refuse(BeginAuthentication)
      else
        Did(this.(state := Authenticating, events := [], active := None), None)
    }

    function BeginResponse(prompt: nat): Did {
      if !Waiting() then
        Refuse(RespondToPrompt)
      else if active != Some(prompt) then
        Did(this, Some(StalePrompt(active, prompt)))
      else
        Did(this.(state := Authenticating, active := None), None)
    }

    function EmitPrompt(kind: PromptKind, message: Text): Did {
      if !state.Authenticating? then
        Refuse(EmitPromptOp)
      else if nextId >= U64_MAX then
        Did(this, Some(PromptIdExhausted))
      else
        Did(Conversation(WaitingFor(kind), events + [Prompt(nextId, kind, message)],
                         Some(nextId), nextId + 1), None)
    }

    function EmitMessage(level: MessageLevel, text: Text): Did {
      if !state.Authenticating? then
        Refuse(EmitMessageOp)
      else
        Did(this.(events := events + [Message(level, text)]), None)
    }

    function Succeed(identity: Text): Did {
      if !state.Authenticating? then
        Refuse(CompleteAuthentication)
      else
        Did(this.(state := Authenticated, active := None, events := events + [Succeeded(identity)]), None)
    }

    function BeginCancel(): Did {
      if !NeedsCancel() then
        Refuse(CancelAuthentication)
      else
        Did(this.(state := Cancelling, active := None), None)
    }

    function FinishCancel(): Did {
      if !state.Cancelling? then
        Refuse(CompleteCancellation)
      else
        Did(this.(state := Idle, events := events + [Cancelled]), None)
    }

    function Reject(): Did {
      if !state.Authenticating? && !Waiting() && !state.Cancelling? then
        Refuse(FailAuthentication)
      else
        Did(this.(state := Failed, active := None, events := events + [AuthenticationFailed]), None)
    }

    function Fail(): Conversation {
      this.(state := Failed, active := None)
    }

    function Disconnect(): Conversation {
      this.(state := Disconnected, active := None)
    }

    /** Drops the oldest pending event, or reports that there is none. */
    function NextEvent(): Did {
      if events == [] then
        Did(this, Some(NoPendingEvent))
      else
        Did(this.(events := events[1..]), None)
    }

    /** A prompt is active exactly while the conversation waits, and it is the newest one. */
    ghost predicate Sound() {
      && (active.Some? <==> Waiting())
      && (active.Some? ==> active.value + 1 == nextId)
    }

    /** The newest pending event is the prompt the conversation is waiting on. */
    ghost predicate JustPrompted() {
      && events != []
      && var newest := events[|events| - 1];
      && newest.Prompt?
      && active == Some(newest.id)
      && state == WaitingFor(newest.kind)
    }

    /** The newest pending event tells the state the conversation has come to. */
    ghost predicate Tells() {
      && events != []
      && var newest := events[|events| - 1];
      match state
      case WaitingForSecret | WaitingForVisible => JustPrompted()
      case Authenticated => newest.Succeeded?
      case Failed => newest.AuthenticationFailed?
      case Idle => newest.Cancelled?
      case _ => false
    }
  }

  const IDLE_CONVERSATION := Conversation(Idle, [], None, 1)

  /**
   * What any backend operation may do to a conversation: it may only be left waiting by
   * emitting a prompt as its newest event, or by not having touched it at all.
   */
  ghost predicate Advances(before: Conversation, after: Conversation) {
    && after.Sound()
    && before.nextId <= after.nextId
    && (after.Waiting() ==> after == before || after.JustPrompted())
  }

  // ---------------------------------------------------------------------------
  // Runs of arbitrary operations

  datatype Op =
    | DoBegin
    | DoRespond(prompt: nat)
    | DoPrompt(kind: PromptKind, message: Text)
    | DoMessage(level: MessageLevel, text: Text)
    | DoSucceed(identity: Text)
    | DoBeginCancel
    | DoFinishCancel
    | DoReject
    | DoFail
    | DoDisconnect
    | DoNextEvent

  function Apply(c: Conversation, op: Op): Did {
    match op
    case DoBegin => c.Begin()
    case DoRespond(prompt) => c.BeginResponse(prompt)
    case DoPrompt(kind, message) => c.EmitPrompt(kind, message)
    case DoMessage(level, text) => c.EmitMessage(level, text)
    case DoSucceed(identity) => c.Succeed(identity)
    case DoBeginCancel => c.BeginCancel()
    case DoFinishCancel => c.FinishCancel()
    case DoReject => c.Reject()
    case DoFail => Did(c.Fail(), None)
    case DoDisconnect => Did(c.Disconnect(), None)
    case DoNextEvent => c.NextEvent()
  }

  function Run(c: Conversation, ops: seq<Op>): Conversation
    decreases |ops|
  {
    if ops == [] then c else Run(Apply(c, ops[0]).conv, ops[1..])
  }

  /** The prompt identifiers whose answers a run accepted, in order. */
  function Accepted(c: Conversation, ops: seq<Op>): seq<nat>
    decreases |ops|
  {
    if ops == [] then []
    else
      var did := Apply(c, ops[0]);
      (if ops[0].DoRespond? && did.error.None? then [ops[0].prompt] else [])
      + Accepted(did.conv, ops[1..])
  }

  /** The prompt identifiers a run emitted, in order. */
  function Emitted(c: Conversation, ops: seq<Op>): seq<nat>
    decreases |ops|
  {
    if ops == [] then []
    else
      var did := Apply(c, ops[0]);
      (if ops[0].DoPrompt? && did.error.None? then [c.nextId] else [])
      + Emitted(did.conv, ops[1..])
  }

  /** Operations that, when they succeed, retire whatever prompt was active. */
  predicate Retires(op: Op) {
    op.DoBegin? || op.DoRespond? || op.DoBeginCancel? || op.DoReject? || op.DoFail? || op.DoDisconnect?
  }

  lemma ApplyKeepsSound(c: Conversation, op: Op)
    requires c.Sound()
    ensures Apply(c, op).conv.Sound()
    ensures c.nextId <= Apply(c, op).conv.nextId <= c.nextId + 1
    ensures Apply(c, op).conv.active in {c.active, None, Some(c.nextId)}
  {
  }

  /** Emitted identifiers never repeat and never go back, whatever is called in between. */
  lemma {:induction false} EmittedIncreases(c: Conversation, ops: seq<Op>)
    requires c.Sound()
    ensures StrictlyIncreasing(Emitted(c, ops))
    ensures forall i :: 0 <= i < |Emitted(c, ops)| ==> c.nextId <= Emitted(c, ops)[i]
    decreases |ops|
  {
    if ops != [] {
      ApplyKeepsSound(c, ops[0]);
      EmittedIncreases(Apply(c, ops[0]).conv, ops[1..]);
    }
  }

  /** An identifier already allocated and no longer active is never answered again. */
  lemma {:induction false} InactiveIsNeverAccepted(c: Conversation, ops: seq<Op>, id: nat)
    requires c.Sound() && id < c.nextId && c.active != Some(id)
    ensures id !in Accepted(c, ops)
    decreases |ops|
  {
    if ops != [] {
      ApplyKeepsSound(c, ops[0]);
      InactiveIsNeverAccepted(Apply(c, ops[0]).conv, ops[1..], id);
    }
  }

  /** After a successful begin, answer, cancel, rejection or failure no older prompt is ever answered. */
  lemma RetiredPromptsStayRetired(c: Conversation, op: Op, later: seq<Op>, id: nat)
    requires c.Sound() && id < c.nextId
    requires Retires(op) && Apply(c, op).error.None?
    ensures id !in Accepted(Apply(c, op).conv, later)
  {
    ApplyKeepsSound(c, op);
    InactiveIsNeverAccepted(Apply(c, op).conv, later, id);
  }

  /** Every accepted answer is for a distinct prompt that was active or was emitted by the run. */
  lemma {:induction false} AcceptedAtMostOnce(c: Conversation, ops: seq<Op>)
    requires c.Sound()
    ensures StrictlyIncreasing(Accepted(c, ops))
    ensures forall id :: id in Accepted(c, ops) ==> c.active == Some(id) || id in Emitted(c, ops)
    decreases |ops|
  {
    if ops != [] {
      var op, next := ops[0], Apply(c, ops[0]).conv;
      ApplyKeepsSound(c, op);
      AcceptedAtMostOnce(next, ops[1..]);
      EmittedIncreases(next, ops[1..]);
      assert next.active.Some? ==> next.active == c.active || next.active == Some(c.nextId);
      forall id | id in Accepted(next, ops[1..])
        ensures c.active == Some(id) || id in Emitted(c, ops)
        ensures op.DoRespond? && Apply(c, op).error.None? ==> op.prompt < id
      {
        assert next.active == Some(id) || id in Emitted(next, ops[1..]);
      }
      assert forall i :: 0 <= i < |Accepted(next, ops[1..])| ==>
               Accepted(next, ops[1..])[i] in Accepted(next, ops[1..]);
    }
  }

  // ---------------------------------------------------------------------------
  // The mutable object

  /** The object backends share: one conversation at a time, with the events its controller has yet to take. */
  class AuthConversation {
    var state: AuthState
    var events: seq<AuthEvent>
    var activePrompt: Option<nat>
    var nextPromptId: nat

    function Model(): Conversation
      reads this
    {
      Conversation(state, events, activePrompt, nextPromptId)
    }

    constructor ()
      ensures Model() == IDLE_CONVERSATION
    {
      state, events, activePrompt, nextPromptId := Idle, [], None, 1;
    }

    predicate NeedsCancel()
      reads this
      ensures NeedsCancel() == Model().NeedsCancel()
    {
      match state
      case Authenticating | WaitingForSecret | WaitingForVisible | Authenticated => true
      case _ => false
    }

    method Begin() returns (error: Option<CoreError>)
      modifies this
      ensures Did(Model(), error) == old(Model()).Begin()
    {
      if state != Idle && state != Failed {
        return Some(InvalidState(BeginAuthentication, state));
      }
      events := [];
      activePrompt := None;
      state := Authenticating;
      return None;
    }

    method BeginResponse(prompt: nat) returns (error: Option<CoreError>)
      modifies this
      ensures Did(Model(), error) == old(Model()).BeginResponse(prompt)
    {
      if state != WaitingForSecret && state != WaitingForVisible {
        return Some(InvalidState(RespondToPrompt, state));
      }
      if activePrompt != Some(prompt) {
        return Some(StalePrompt(activePrompt, prompt));
      }
      activePrompt := None;
      state := Authenticating;
      return None;
    }

    method EmitPrompt(kind: PromptKind, message: Text) returns (error: Option<CoreError>)
      modifies this
      ensures Did(Model(), error) == old(Model()).EmitPrompt(kind, message)
    {
      if state != Authenticating {
        return Some(InvalidState(EmitPromptOp, state));
      }
      var id := nextPromptId;
      if nextPromptId >= U64_MAX {
        return Some(PromptIdExhausted);
      }
      nextPromptId := nextPromptId + 1;
      activePrompt := Some(id);
      state := match kind case Secret => WaitingForSecret case Visible => WaitingForVisible;
      events := events + [Prompt(id, kind, message)];
      return None;
    }

    method EmitMessage(level: MessageLevel, text: Text) returns (error: Option<CoreError>)
      modifies this
      ensures Did(Model(), error) == old(Model()).EmitMessage(level, text)
    {
      if state != Authenticating {
        return Some(InvalidState(EmitMessageOp, state));
      }
      events := events + [Message(level, text)];
      return None;
    }

    method Succeed(identity: Text) returns (error: Option<CoreError>)
      modifies this
      ensures Did(Model(), error) == old(Model()).Succeed(identity)
    {
      if state != Authenticating {
        return Some(InvalidState(CompleteAuthentication, state));
      }
      activePrompt := None;
      state := Authenticated;
      events := events + [Succeeded(identity)];
      return None;
    }

    method BeginCancel() returns (error: Option<CoreError>)
      modifies this
      ensures Did(Model(), error) == old(Model()).BeginCancel()
    {
      if !NeedsCancel() {
        return Some(InvalidState(CancelAuthentication, state));
      }
      activePrompt := None;
      state := Cancelling;
      return None;
    }

    method FinishCancel() returns (error: Option<CoreError>)
      modifies this
      ensures Did(Model(), error) == old(Model()).FinishCancel()
    {
      if state != Cancelling {
        return Some(InvalidState(CompleteCancellation, state));
      }
      state := Idle;
      events := events + [Cancelled];
      return None;
    }

    method Reject() returns (error: Option<CoreError>)
      modifies this
      ensures Did(Model(), error) == old(Model()).Reject()
    {
      if state !in {Authenticating, WaitingForSecret, WaitingForVisible, Cancelling} {
        return Some(InvalidState(FailAuthentication, state));
      }
      activePrompt := None;
      state := Failed;
      events := events + [AuthenticationFailed];
      return None;
    }

    method Fail()
      modifies this
      ensures Model() == old(Model()).Fail()
    {
      activePrompt := None;
      state := Failed;
    }

    method Disconnect()
      modifies this
      ensures Model() == old(Model()).Disconnect()
    {
      activePrompt := None;
      state := Disconnected;
    }

    /** Consumes the oldest pending event; None stands for the no-pending-event error. */
    method NextEvent() returns (event: Option<AuthEvent>)
      modifies this
      ensures Model() == old(Model()).NextEvent().conv
      ensures event == if old(events) == [] then None else Some(old(events)[0])
    {
      if events == [] {
        return None;
      }
      event := Some(events[0]);
      events := events[1..];
    }
  }
}

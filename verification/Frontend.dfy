/** The frontend protocol values and the public authentication state shared by both controllers. */
module Frontend {
  import opened Prelude
  import Core

  const MAX_AUTH_MESSAGES := 16
  const MAX_DISPLAY_TEXT_BYTES := 4 * 1024
  const MAX_USERS := 128

  /** Bound on user names, display names and session identifiers alike. */
  const MAX_LABEL_BYTES := 256

  datatype AuthState =
    | Idle
    | Authenticating
    | WaitingForSecret
    | WaitingForVisible
    | Authenticated
    | Cancelling
    | Failed
  {
    predicate Waiting() {
      WaitingForSecret? || WaitingForVisible?
    }
  }

  datatype LockState = Acquiring | Locked | Unlocking | Released | LockBroken

  datatype LoginState = NoSession | StartingSession | Started | StartFailed

  datatype PromptKind = SecretAnswer | VisibleAnswer

  datatype MessageLevel = InfoText | ErrorText

  datatype Prompt = Prompt(id: nat, kind: PromptKind, message: Text)

  datatype Note = Note(level: MessageLevel, text: Text)

  datatype Event =
    | StateChanged(state: AuthState)
    | AuthPrompt(prompt: Prompt)
    | AuthMessage(note: Note)
    | AuthSucceeded
    | AuthFailed
    | AuthCancelled
    | SessionSelected(session: Text)
    | SessionStarted
    | LockAcquired
    | LockFailed
    | LockReleased
  {
    /** An event that reports on the conversation only. */
    predicate Conversational() {
      AuthPrompt? || AuthMessage? || AuthSucceeded? || AuthFailed? || AuthCancelled?
    }

    /** An event that a request batch may carry besides a state change. */
    predicate Detail() {
      Conversational() || SessionSelected? || SessionStarted?
    }
  }

  datatype Envelope = Envelope(sequence: nat, event: Event)

  datatype ErrorCode =
    | InvalidState
    | StalePrompt
    | InvalidParams
    | MethodDisabled
    | SessionNotFound
    | Internal

  /** A decoded request; `enabled` and `accepted` are the power service's part in it. */
  datatype Request =
    | StateGet
    | AuthBegin(username: Option<Text>)
    | AuthRespond(prompt: nat, response: Text)
    | AuthCancel
    | PowerRequest(enabled: bool, accepted: bool)
    | SessionSelect(session: Text)

  datatype Mode = GreeterMode | LockerMode

  predicate BelongsTo(mode: Mode, event: Event) {
    match event
    case SessionSelected(_) | SessionStarted => mode.GreeterMode?
    case LockAcquired | LockFailed | LockReleased => mode.LockerMode?
    case _ => true
  }

  ghost predicate AllBelong(mode: Mode, events: seq<Event>) {
    forall event :: event in events ==> BelongsTo(mode, event)
  }

  /** What the locker or the greeter adds to the public authentication state. */
  datatype Role = LockerRole(lock: LockState) | GreeterRole(login: LoginState, selected: Option<Text>)

  /** Public state at one moment. */
  datatype Snapshot = Snapshot(
    authentication: AuthState, prompt: Option<Prompt>, messages: seq<Note>, sequence: nat, role: Role)

  datatype Response = Success | State(snapshot: Snapshot) | Failure(code: ErrorCode)

  /** The result of a request inside a controller: events of its own, or an error for the frontend. */
  datatype Outcome = Completed(events: seq<Event>) | Refused(code: ErrorCode) {
    function Own(): seq<Event> {
      if Completed? then events else []
    }

    function Answer(): Response {
      match this
      case Completed(_) => Success
      case Refused(code) => Failure(code)
    }
  }

  function AsOutcome(error: Option<Core.BackendError>): Outcome {
    match error
    case None => Completed([])
    case Some(failure) => Refused(ProtocolError(failure))
  }

  function MapState(state: Core.AuthState): AuthState {
    match state
    case Disconnected => Failed
    case Idle => Idle
    case Authenticating => Authenticating
    case WaitingForSecret => WaitingForSecret
    case WaitingForVisible => WaitingForVisible
    case Authenticated => Authenticated
    case Cancelling => Cancelling
    case Failed => Failed
  }

  function MapKind(kind: Core.PromptKind): PromptKind {
    match kind
    case Secret => SecretAnswer
    case Visible => VisibleAnswer
  }

  function MapLevel(level: Core.MessageLevel): MessageLevel {
    match level
    case Info => InfoText
    case Error => ErrorText
  }

  function ProtocolError(error: Core.BackendError): ErrorCode {
    match error
    case CoreFailure(InvalidState(_, _)) => InvalidState
    case CoreFailure(StalePrompt(_, _)) => StalePrompt
    case _ => Internal
  }

  /** Text a frontend prompt or message accepts. */
  predicate Displayable(text: Text) {
    |text| <= MAX_DISPLAY_TEXT_BYTES && 0 !in text
  }

  /** A Unicode control character starts at this byte of a UTF-8 text. */
  predicate ControlAt(text: Text, i: nat)
    requires i < |text|
  {
    text[i] < 0x20 || text[i] == 0x7F || (text[i] == 0xC2 && i + 1 < |text| && 0x80 <= text[i + 1] < 0xA0)
  }

  /** A name or identifier the frontend protocol accepts. */
  predicate ValidLabel(text: Text) {
    1 <= |text| <= MAX_LABEL_BYTES && forall i :: 0 <= i < |text| ==> !ControlAt(text, i)
  }

  // ---------------------------------------------------------------------------
  // Event sequences

  /** Envelopes numbered from `next`, or None when the safe integers run out. */
  function Stamp(next: nat, events: seq<Event>): Option<seq<Envelope>> {
    if events != [] && next + |events| > MAX_SAFE_INTEGER + 1 then None
    else Some(seq(|events|, i requires 0 <= i < |events| => Envelope(next + i, events[i])))
  }

  function NextAfter(next: nat, events: seq<Event>): nat {
    if events == [] || next > MAX_SAFE_INTEGER then next
    else if next + |events| > MAX_SAFE_INTEGER + 1 then MAX_SAFE_INTEGER + 1
    else next + |events|
  }

  class EventSequence {
    var next: nat

    constructor ()
      ensures next == 1
    {
      next := 1;
    }

    method Allocate() returns (sequence: Option<nat>)
      modifies this
      ensures if old(next) > MAX_SAFE_INTEGER then sequence == None && next == old(next)
              else sequence == Some(old(next)) && next == old(next) + 1
    {
      if next > MAX_SAFE_INTEGER {
        return None;
      }
      sequence := Some(next);
      next := next + 1;
    }

    function Watermark(): nat
      reads this
    {
      if next == 0 then 0 else next - 1
    }
  }

  // ---------------------------------------------------------------------------
  // Public authentication state

  datatype Applied = Applied(public: Public, event: Event)

  /** The public state and conversation after draining, with the events it yielded unless one was unsafe. */
  datatype Drained = Drained(public: Public, conv: Core.Conversation, events: Option<seq<Event>>)

  datatype Enveloped = Enveloped(public: Public, envelopes: Option<seq<Envelope>>)

  /** The abstract value of an `AuthPublicState`. */
  datatype Public = Public(
    authentication: AuthState, prompt: Option<Prompt>, corePrompt: Option<nat>, messages: seq<Note>, next: nat)
  {
    function Watermark(): nat {
      if next == 0 then 0 else next - 1
    }

    function Reset(): Public {
      this.(prompt := None, corePrompt := None, messages := [])
    }

    function ClearPrompt(): Public {
      this.(prompt := None, corePrompt := None)
    }

    function Update(state: Core.AuthState): Public {
      this.(authentication := MapState(state))
    }

    /** The reaction to one core event; None when it is not safe to show. */
    function ApplyCore(event: Core.AuthEvent): Option<Applied> {
      match event
      case Prompt(id, kind, message) =>
        if id > MAX_SAFE_INTEGER || !Displayable(message) then None
        else
          var shown := Prompt.Prompt(id, MapKind(kind), message);
          Some(Applied(this.(prompt := Some(shown), corePrompt := Some(id)), AuthPrompt(shown)))
      case Message(level, text) =>
        if !Displayable(text) then None
        else
          var note := Note(MapLevel(level), text);
          var kept := if |messages| == MAX_AUTH_MESSAGES then messages[1..] else messages;
          Some(Applied(this.(messages := kept + [note]), AuthMessage(note)))
      case Succeeded(_) => Some(Applied(ClearPrompt(), AuthSucceeded))
      case AuthenticationFailed => Some(Applied(ClearPrompt(), AuthFailed))
      case Cancelled => Some(Applied(ClearPrompt(), AuthCancelled))
    }

    /** Applies pending core events in order, adding to the events already gathered. */
    function Drain(conv: Core.Conversation, gathered: seq<Event>): Drained
      decreases |conv.events|
    {
      if conv.events == [] then
        Drained(this, conv, Some(gathered))
      else
        match ApplyCore(conv.events[0])
        case None => Drained(this, conv.NextEvent().conv, None)
        case Some(Applied(public, event)) => public.Drain(conv.NextEvent().conv, gathered + [event])
    }

    function Envelop(events: seq<Event>): Enveloped {
      Enveloped(this.(next := NextAfter(next, events)), Stamp(next, events))
    }

    ghost predicate Bounded() {
      |messages| <= MAX_AUTH_MESSAGES && 1 <= next <= MAX_SAFE_INTEGER + 1
    }

    /** The public prompt is the conversation's active prompt, with its kind, whenever it waits. */
    ghost predicate Mirrors(conv: Core.Conversation) {
      conv.Waiting() ==>
        && prompt.Some? && corePrompt == conv.active == Some(prompt.value.id)
        && conv.state == Core.WaitingFor(if prompt.value.kind.SecretAnswer? then Core.Secret else Core.Visible)
    }
  }

  function FreshPublic(state: Core.AuthState): Public {
    Public(MapState(state), None, None, [], 1)
  }

  ghost predicate AllConversational(events: seq<Event>) {
    forall event :: event in events ==> event.Conversational()
  }

  /** How a core event appears on the frontend. */
  function Shown(event: Core.AuthEvent): Event {
    match event
    case Prompt(id, kind, message) => AuthPrompt(Prompt.Prompt(id, MapKind(kind), message))
    case Message(level, text) => AuthMessage(Note(MapLevel(level), text))
    case Succeeded(_) => AuthSucceeded
    case AuthenticationFailed => AuthFailed
    case Cancelled => AuthCancelled
  }

  function ShownAll(events: seq<Core.AuthEvent>): seq<Event> {
    seq(|events|, i requires 0 <= i < |events| => Shown(events[i]))
  }

  /** Draining shows every pending event, in order, behind what was gathered before. */
  lemma {:induction false} DrainShowsAll(p: Public, conv: Core.Conversation, gathered: seq<Event>)
    requires p.Drain(conv, gathered).events.Some?
    ensures p.Drain(conv, gathered).events.value == gathered + ShownAll(conv.events)
    decreases |conv.events|
  {
    if conv.events == [] {
      assert gathered + [] == gathered;
    } else {
      var Some(Applied(next, event)) := p.ApplyCore(conv.events[0]);
      DrainShowsAll(next, conv.NextEvent().conv, gathered + [event]);
      assert ShownAll(conv.events) == [event] + ShownAll(conv.events[1..]);
      assert gathered + [event] + ShownAll(conv.events[1..]) == gathered + ShownAll(conv.events);
    }
  }

  /** What draining a conversation does, when every pending event is safe to show. */
  lemma {:induction false} DrainDelivers(p: Public, conv: Core.Conversation, gathered: seq<Event>)
    requires p.Drain(conv, gathered).events.Some? && AllConversational(gathered)
    ensures var Drained(after, rest, Some(events)) := p.Drain(conv, gathered);
      && rest == conv.(events := [])
      && after.authentication == p.authentication && after.next == p.next
      && (|p.messages| <= MAX_AUTH_MESSAGES ==> |after.messages| <= MAX_AUTH_MESSAGES)
      && AllConversational(events)
      && (conv.events == [] ==> after == p && events == gathered)
      && (conv.JustPrompted() ==>
            after.Mirrors(conv) && after.prompt.Some?
            && events != [] && events[|events| - 1] == AuthPrompt(after.prompt.value))
    decreases |conv.events|
  {
    if conv.events != [] {
      var Some(Applied(next, event)) := p.ApplyCore(conv.events[0]);
      var popped := conv.NextEvent().conv;
      DrainDelivers(next, popped, gathered + [event]);
      if |conv.events| > 1 && conv.JustPrompted() {
        assert popped.events[|popped.events| - 1] == conv.events[|conv.events| - 1];
        assert popped.JustPrompted();
      }
    }
  }

  /** The newest messages, as many as the public state keeps. */
  function KeepNewest(notes: seq<Note>): seq<Note> {
    if |notes| > MAX_AUTH_MESSAGES then notes[|notes| - MAX_AUTH_MESSAGES..] else notes
  }

  /** The messages that events tell, in order. */
  function NotesOf(events: seq<Event>): seq<Note> {
    if events == [] then []
    else (if events[0].AuthMessage? then [events[0].note] else []) + NotesOf(events[1..])
  }

  lemma KeepNewestTwice(first: seq<Note>, second: seq<Note>)
    ensures KeepNewest(KeepNewest(first) + second) == KeepNewest(first + second)
  {
    if |first| > MAX_AUTH_MESSAGES {
      var dropped := |first| - MAX_AUTH_MESSAGES;
      assert (first + second)[dropped..] == first[dropped..] + second;
    }
  }

  /** One core event leaves the newest messages, its own included. */
  lemma ApplyKeepsNewestMessages(p: Public, event: Core.AuthEvent)
    requires |p.messages| <= MAX_AUTH_MESSAGES && p.ApplyCore(event).Some?
    ensures var Some(Applied(next, shown)) := p.ApplyCore(event);
      next.messages == KeepNewest(p.messages + NotesOf([shown]))
  {
    var shown := p.ApplyCore(event).value.event;
    assert NotesOf([shown]) == if shown.AuthMessage? then [shown.note] else [];
    if !shown.AuthMessage? {
      assert p.messages + [] == p.messages;
    }
  }

  lemma NotesJoin(messages: seq<Note>, event: Event, rest: seq<Event>)
    ensures KeepNewest(KeepNewest(messages + NotesOf([event])) + NotesOf(rest)) == KeepNewest(messages + NotesOf([event] + rest))
  {
    KeepNewestTwice(messages + NotesOf([event]), NotesOf(rest));
    assert ([event] + rest)[1..] == rest && [event][1..] == [];
    assert messages + NotesOf([event]) + NotesOf(rest) == messages + NotesOf([event] + rest);
  }

  /** Draining appends to the events already gathered and leaves the newest sixteen messages. */
  lemma {:induction false} DrainKeepsNewestMessages(p: Public, conv: Core.Conversation, gathered: seq<Event>)
    returns (told: seq<Event>)
    requires |p.messages| <= MAX_AUTH_MESSAGES && p.Drain(conv, gathered).events.Some?
    ensures var Drained(after, _, Some(events)) := p.Drain(conv, gathered);
      events == gathered + told && after.messages == KeepNewest(p.messages + NotesOf(told))
    decreases |conv.events|
  {
    if conv.events == [] {
      told := [];
      assert p.messages + [] == p.messages;
    } else {
      var Some(Applied(next, event)) := p.ApplyCore(conv.events[0]);
      var rest := DrainKeepsNewestMessages(next, conv.NextEvent().conv, gathered + [event]);
      told := [event] + rest;
      ApplyKeepsNewestMessages(p, conv.events[0]);
      NotesJoin(p.messages, event, rest);
      assert gathered + [event] + rest == gathered + told;
    }
  }

  /** However draining ends, it only removes pending events. */
  lemma {:induction false} DrainPops(p: Public, conv: Core.Conversation, gathered: seq<Event>)
    ensures var Drained(after, rest, _) := p.Drain(conv, gathered);
      rest.state == conv.state && rest.active == conv.active && rest.nextId == conv.nextId
      && |rest.events| <= |conv.events|
    decreases |conv.events|
  {
    if conv.events != [] && p.ApplyCore(conv.events[0]).Some? {
      DrainPops(p.ApplyCore(conv.events[0]).value.public, conv.NextEvent().conv,
                gathered + [p.ApplyCore(conv.events[0]).value.event]);
    }
  }

  function EventsOf(envelopes: seq<Envelope>): seq<Event> {
    seq(|envelopes|, i requires 0 <= i < |envelopes| => envelopes[i].event)
  }

  /** Events in the order a batch carries them: the state change, if any, then the details. */
  function Announce(previous: AuthState, current: AuthState, details: seq<Event>): seq<Event> {
    (if previous != current then [StateChanged(current)] else []) + details
  }

  /**
   * What a batch tells about a change of public state: the new authentication state if it is
   * another one, then details; if the host now waits, either the newest detail is its prompt, or it
   * waited on the same prompt before and nothing but session selections is told.
   */
  ghost predicate Publishes(before: Public, after: Public, events: seq<Event>) {
    exists details :: Reports(before, after, events, details)
  }

  ghost predicate Reports(before: Public, after: Public, events: seq<Event>, details: seq<Event>) {
    && events == Announce(before.authentication, after.authentication, details)
    && AllDetails(details)
    && (after.authentication.Waiting() ==>
          && after.prompt.Some?
          && (EndsInPrompt(details, after.prompt.value) || (SamePrompt(before, after) && OnlySelections(details))))
  }

  /** A batch carries exactly the state change, if any, and these details. */
  ghost predicate Announces(before: Public, after: Public, envelopes: seq<Envelope>, details: seq<Event>) {
    EventsOf(envelopes) == Announce(before.authentication, after.authentication, details)
  }

  /** The newest event tells the public authentication state. */
  ghost predicate TellsState(auth: Public, events: seq<Event>) {
    && events != []
    && var newest := events[|events| - 1];
    match auth.authentication
    case WaitingForSecret | WaitingForVisible => auth.prompt.Some? && newest == AuthPrompt(auth.prompt.value)
    case Authenticated => newest.AuthSucceeded?
    case Failed => newest.AuthFailed?
    case Idle => newest.AuthCancelled?
    case _ => false
  }

  ghost predicate AllDetails(events: seq<Event>) {
    forall event :: event in events ==> event.Detail()
  }

  ghost predicate OnlySelections(events: seq<Event>) {
    forall event :: event in events ==> event.SessionSelected?
  }

  ghost predicate EndsInPrompt(events: seq<Event>, prompt: Prompt) {
    events != [] && events[|events| - 1] == AuthPrompt(prompt)
  }

  ghost predicate SamePrompt(before: Public, after: Public) {
    after.authentication == before.authentication && after.prompt == before.prompt
  }

  /** The envelopes continue the sequence where it stood and take its numbers without a gap. */
  ghost predicate Continues(before: Public, after: Public, envelopes: seq<Envelope>) {
    && after.next == before.next + |envelopes|
    && forall i :: 0 <= i < |envelopes| ==> envelopes[i].sequence == before.next + i
  }

  lemma StampContinues(p: Public, events: seq<Event>)
    requires p.Bounded() && p.Envelop(events).envelopes.Some?
    ensures var Enveloped(after, Some(envelopes)) := p.Envelop(events);
      after.Bounded() && Continues(p, after, envelopes) && EventsOf(envelopes) == events
  {
  }

  class AuthPublicState {
    var authentication: AuthState
    var prompt: Option<Prompt>
    var corePrompt: Option<nat>
    var messages: seq<Note>
    const sequences: EventSequence

    function Model(): Public
      reads this, sequences
    {
      Public(authentication, prompt, corePrompt, messages, sequences.next)
    }

    constructor (state: Core.AuthState)
      ensures Model() == FreshPublic(state)
      ensures fresh(sequences)
    {
      authentication := MapState(state);
      prompt, corePrompt, messages := None, None, [];
      sequences := new EventSequence();
    }

    method ResetConversation()
      modifies this
      ensures Model() == old(Model()).Reset()
    {
      prompt := None;
      corePrompt := None;
      messages := [];
    }

    method ClearPrompt()
      modifies this
      ensures Model() == old(Model()).ClearPrompt()
    {
      prompt := None;
      corePrompt := None;
    }

    method UpdateState(state: Core.AuthState)
      modifies this
      ensures Model() == old(Model()).Update(state)
    {
      authentication := MapState(state);
    }

    method EnvelopeEvents(events: seq<Event>) returns (envelopes: Option<seq<Envelope>>)
      modifies sequences
      ensures Enveloped(Model(), envelopes) == old(Model()).Envelop(events)
    {
      var stamped: seq<Envelope> := [];
      for i := 0 to |events|
        invariant i > 0 ==> old(sequences.next) + i <= MAX_SAFE_INTEGER + 1
        invariant sequences.next == old(sequences.next) + i
        invariant stamped == seq(i, j requires 0 <= j < i => Envelope(old(sequences.next) + j, events[j]))
      {
        var sequence := sequences.Allocate();
        if sequence == None {
          return None;
        }
        stamped := stamped + [Envelope(sequence.value, events[i])];
      }
      return Some(stamped);
    }

    method ApplyCoreEvent(event: Core.AuthEvent) returns (shown: Option<Event>)
      modifies this
      ensures match old(Model()).ApplyCore(event)
              case None => shown == None && Model() == old(Model())
              case Some(Applied(after, value)) => shown == Some(value) && Model() == after
    {
      match event
      case Prompt(id, kind, message) =>
        if id > MAX_SAFE_INTEGER || !Displayable(message) {
          return None;
        }
        var value := Prompt.Prompt(id, MapKind(kind), message);
        corePrompt := Some(id);
        prompt := Some(value);
        return Some(AuthPrompt(value));
      case Message(level, text) =>
        if !Displayable(text) {
          return None;
        }
        var note := Note(MapLevel(level), text);
        if |messages| == MAX_AUTH_MESSAGES {
          messages := messages[1..];
        }
        messages := messages + [note];
        return Some(AuthMessage(note));
      case Succeeded(_) =>
        ClearPrompt();
        return Some(AuthSucceeded);
      case AuthenticationFailed =>
        ClearPrompt();
        return Some(AuthFailed);
      case Cancelled =>
        ClearPrompt();
        return Some(AuthCancelled);
    }

    method DrainCoreEvents(conversation: Core.AuthConversation) returns (events: Option<seq<Event>>)
      modifies this, conversation
      ensures Drained(Model(), conversation.Model(), events) == old(Model()).Drain(old(conversation.Model()), [])
    {
      var gathered: seq<Event> := [];
      while true
        invariant Model().Drain(conversation.Model(), gathered) == old(Model()).Drain(old(conversation.Model()), [])
        decreases |conversation.events|
      {
        var event := conversation.NextEvent();
        if event == None {
          return Some(gathered);
        }
        var shown := ApplyCoreEvent(event.value);
        if shown == None {
          return None;
        }
        gathered := gathered + [shown.value];
      }
    }

    method DiscardCoreEvents(conversation: Core.AuthConversation)
      modifies conversation
      ensures conversation.Model() == old(conversation.Model()).(events := [])
    {
      while conversation.events != []
        invariant conversation.Model() == old(conversation.Model()).(events := conversation.events)
        decreases |conversation.events|
      {
        var _ := conversation.NextEvent();
      }
    }
  }
}

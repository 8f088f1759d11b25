/** The theme's replica of the host's public state (themes/nocturne, theme-store.ts). */
module ThemeStore {
  import opened Prelude
  import opened Frontend
  import Core

  const MAX_AUTHENTICATION_MESSAGES := 16

  // ---------------------------------------------------------------------------
  // Event reducers

  /** A new authentication state keeps the prompt only if it is of the kind that state waits for. */
  function UpdateAuthentication(s: Snapshot, authentication: AuthState, sequence: nat): Snapshot {
    var stillActive := s.prompt.Some? &&
                       ((authentication.WaitingForSecret? && s.prompt.value.kind.SecretAnswer?) ||
                        (authentication.WaitingForVisible? && s.prompt.value.kind.VisibleAnswer?));
    s.(authentication := authentication, prompt := if stillActive then s.prompt else None, sequence := sequence)
  }

  function ClearPrompt(s: Snapshot, sequence: nat): Snapshot {
    s.(prompt := None, sequence := sequence)
  }

  /** A failure is shown as a message unless the newest message already is an error. */
  function RecordFailure(s: Snapshot, failure: Text, sequence: nat): Snapshot {
    var told := s.messages != [] && s.messages[|s.messages| - 1].level.ErrorText?;
    var from := if |s.messages| < MAX_AUTHENTICATION_MESSAGES then 0
                else |s.messages| - (MAX_AUTHENTICATION_MESSAGES - 1);
    s.(prompt := None, sequence := sequence,
       messages := if told then s.messages else s.messages[from..] + [Note(ErrorText, failure)])
  }

  function UpdateLock(s: Snapshot, lock: LockState, sequence: nat): Snapshot {
    if s.role.LockerRole? then s.(role := LockerRole(lock), sequence := sequence) else s
  }

  /** The reaction to one event; `failure` is the translated text for a failed authentication. */
  function Reduce(s: Snapshot, envelope: Envelope, failure: Text): Snapshot {
    var Envelope(sequence, event) := envelope;
    match event
    case StateChanged(state) => UpdateAuthentication(s, state, sequence)
    case AuthPrompt(prompt) => s.(prompt := Some(prompt), sequence := sequence)
    case AuthMessage(note) => s.(messages := s.messages + [note], sequence := sequence)
    case AuthFailed => RecordFailure(s, failure, sequence)
    case AuthCancelled => ClearPrompt(s, sequence)
    case AuthSucceeded => ClearPrompt(s, sequence)
    case SessionSelected(session) =>
      if s.role.GreeterRole? then s.(role := s.role.(selected := Some(session)), sequence := sequence) else s
    case SessionStarted =>
      if s.role.GreeterRole? then s.(role := s.role.(login := Started), sequence := sequence) else s
    case LockAcquired => UpdateLock(s, Locked, sequence)
    case LockFailed => UpdateLock(s, LockBroken, sequence)
    case LockReleased => UpdateLock(s, Released, sequence)
  }

  function Fold(s: Snapshot, envelopes: seq<Envelope>, failure: Text): Snapshot
    decreases |envelopes|
  {
    if envelopes == [] then s
    else Reduce(Fold(s, envelopes[..|envelopes| - 1], failure), envelopes[|envelopes| - 1], failure)
  }

  /** What the theme does on its own before it starts or restarts an authentication. */
  function ClearDisplay(s: Snapshot): Snapshot {
    s.(prompt := None, messages := [])
  }

  // ---------------------------------------------------------------------------
  // Agreement

  /** The replica shows the host's authentication state, and its prompt whenever the host waits for one. */
  ghost predicate Agrees(s: Snapshot, auth: Public) {
    && s.authentication == auth.authentication
    && (auth.authentication.Waiting() ==> s.prompt == auth.prompt)
  }

  lemma {:induction false} FoldSplits(s: Snapshot, first: seq<Envelope>, second: seq<Envelope>, failure: Text)
    ensures Fold(s, first + second, failure) == Fold(Fold(s, first, failure), second, failure)
    decreases |second|
  {
    if second == [] {
      assert first + second == first;
    } else {
      assert (first + second)[..|first + second| - 1] == first + second[..|second| - 1];
      FoldSplits(s, first, second[..|second| - 1], failure);
    }
  }

  lemma EventsOfParts(envelopes: seq<Envelope>, n: nat)
    requires n <= |envelopes|
    ensures EventsOf(envelopes[..n]) == EventsOf(envelopes)[..n]
    ensures EventsOf(envelopes[n..]) == EventsOf(envelopes)[n..]
  {
  }

  /** Details never touch the replica's authentication state or lock. */
  lemma {:induction false} FoldDetails(s: Snapshot, envelopes: seq<Envelope>, failure: Text)
    requires AllDetails(EventsOf(envelopes))
    ensures var after := Fold(s, envelopes, failure);
      && after.authentication == s.authentication
      && (s.role.LockerRole? ==> after.role == s.role)
      && (OnlySelections(EventsOf(envelopes)) ==> after.prompt == s.prompt)
    decreases |envelopes|
  {
    if envelopes != [] {
      var n := |envelopes| - 1;
      assert EventsOf(envelopes)[n] == envelopes[n].event;
      assert envelopes[n].event in EventsOf(envelopes);
      EventsOfParts(envelopes, n);
      forall event | event in EventsOf(envelopes[..n]) ensures event in EventsOf(envelopes) {
        assert event in EventsOf(envelopes)[..n];
      }
      FoldDetails(s, envelopes[..n], failure);
    }
  }

  /** The state change in front of a batch, if there is one, sets the replica's state and nothing else that is kept. */
  lemma AnnouncedState(s: Snapshot, before: Public, after: Public, change: seq<Envelope>, failure: Text)
    requires s.authentication == before.authentication
    requires EventsOf(change) == Announce(before.authentication, after.authentication, [])
    ensures var changed := Fold(s, change, failure);
      && changed.authentication == after.authentication && changed.role == s.role
      && (before.authentication == after.authentication ==> changed == s)
  {
    if change != [] {
      assert change[0].event == EventsOf(change)[0];
      assert change[..0] == [];
    }
  }

  /** The newest detail decides the replica's prompt if it is one. */
  lemma FoldEndsInPrompt(s: Snapshot, envelopes: seq<Envelope>, prompt: Prompt, failure: Text)
    requires EndsInPrompt(EventsOf(envelopes), prompt)
    ensures Fold(s, envelopes, failure).prompt == Some(prompt)
  {
    assert envelopes[|envelopes| - 1].event == EventsOf(envelopes)[|envelopes| - 1];
  }

  lemma DetailsKeepAgreement(
    s: Snapshot, changed: Snapshot, before: Public, after: Public, told: seq<Envelope>, failure: Text)
    requires Agrees(s, before) && AllDetails(EventsOf(told))
    requires changed.authentication == after.authentication && changed.role == s.role
    requires before.authentication == after.authentication ==> changed == s
    requires after.authentication.Waiting() ==>
               && after.prompt.Some?
               && (EndsInPrompt(EventsOf(told), after.prompt.value)
                   || (SamePrompt(before, after) && OnlySelections(EventsOf(told))))
    ensures Agrees(Fold(changed, told, failure), after)
    ensures s.role.LockerRole? ==> Fold(changed, told, failure).role == s.role
  {
    FoldDetails(changed, told, failure);
    if after.authentication.Waiting() && EndsInPrompt(EventsOf(told), after.prompt.value) {
      FoldEndsInPrompt(changed, told, after.prompt.value, failure);
    }
  }

  /** A batch is its state change, if any, followed by its details. */
  lemma BatchSplits(envelopes: seq<Envelope>, previous: AuthState, current: AuthState, details: seq<Event>)
    returns (change: seq<Envelope>, told: seq<Envelope>)
    requires EventsOf(envelopes) == Announce(previous, current, details)
    ensures envelopes == change + told
    ensures EventsOf(change) == Announce(previous, current, []) && EventsOf(told) == details
  {
    var n := |envelopes| - |details|;
    change, told := envelopes[..n], envelopes[n..];
    EventsOfParts(envelopes, n);
    assert EventsOf(envelopes)[n..] == details;
    assert EventsOf(envelopes)[..n] == Announce(previous, current, []);
  }

  /**
   * Folding the reducers over any published batch takes a replica that agrees with the host to one
   * that agrees again.
   */
  lemma PublishedKeepsAgreement(
    s: Snapshot, before: Public, after: Public, envelopes: seq<Envelope>, failure: Text)
    requires Agrees(s, before) && Publishes(before, after, EventsOf(envelopes))
    ensures Agrees(Fold(s, envelopes, failure), after)
    ensures s.role.LockerRole? ==> Fold(s, envelopes, failure).role == s.role
  {
    var details :| Reports(before, after, EventsOf(envelopes), details);
    var change, told := BatchSplits(envelopes, before.authentication, after.authentication, details);
    AnnouncedState(s, before, after, change, failure);
    FoldSplits(s, change, told, failure);
    DetailsKeepAgreement(s, Fold(s, change, failure), before, after, told, failure);
  }

  /** The state in which a prompt of this kind is answered. */
  function AnsweredIn(kind: PromptKind): AuthState {
    if kind.SecretAnswer? then WaitingForSecret else WaitingForVisible
  }

  /** An announced state leaves no prompt that it does not wait for, and never loses the one it does. */
  lemma AnnouncedStateFitsPrompt(s: Snapshot, state: AuthState, sequence: nat)
    ensures var after := UpdateAuthentication(s, state, sequence);
      && (after.prompt.Some? ==> state == AnsweredIn(after.prompt.value.kind))
      && (s.prompt.Some? && state == AnsweredIn(s.prompt.value.kind) ==> after.prompt == s.prompt)
      && UpdateAuthentication(after, state, sequence) == after
  {
  }

  lemma NotesCons(event: Event, rest: seq<Event>)
    ensures NotesOf([event] + rest) == (if event.AuthMessage? then [event.note] else []) + NotesOf(rest)
  {
    assert ([event] + rest)[1..] == rest;
  }

  lemma {:induction false} NotesAppend(first: seq<Event>, second: seq<Event>)
    ensures NotesOf(first + second) == NotesOf(first) + NotesOf(second)
    decreases |first|
  {
    if first == [] {
      assert first + second == second;
    } else {
      NotesAppend(first[1..], second);
      assert first + second == [first[0]] + (first[1..] + second);
      NotesCons(first[0], first[1..] + second);
      NotesCons(first[0], first[1..]);
      assert [first[0]] + first[1..] == first;
    }
  }

  /** Without a failure among them, events add exactly the messages they tell to the replica's list. */
  lemma {:induction false} FoldMessages(s: Snapshot, envelopes: seq<Envelope>, failure: Text)
    requires AuthFailed !in EventsOf(envelopes)
    ensures Fold(s, envelopes, failure).messages == s.messages + NotesOf(EventsOf(envelopes))
    decreases |envelopes|
  {
    if envelopes == [] {
      assert s.messages + [] == s.messages;
    } else {
      var n := |envelopes| - 1;
      EventsOfParts(envelopes, n);
      assert EventsOf(envelopes) == EventsOf(envelopes[..n]) + [envelopes[n].event];
      FoldMessages(s, envelopes[..n], failure);
      NotesAppend(EventsOf(envelopes[..n]), [envelopes[n].event]);
      assert NotesOf([envelopes[n].event]) == if envelopes[n].event.AuthMessage? then [envelopes[n].event.note] else [];
      assert s.messages + NotesOf(EventsOf(envelopes[..n])) + NotesOf([envelopes[n].event])
          == s.messages + NotesOf(EventsOf(envelopes));
    }
  }

  /** The host's bounded messages are the newest of the replica's, as long as nothing failed or was reset. */
  lemma HostMessagesAreNewest(s: Snapshot, before: Public, conv: Core.Conversation, envelopes: seq<Envelope>, failure: Text)
    requires KeepNewest(s.messages) == before.messages && before.Drain(conv, []).events.Some?
    requires EventsOf(envelopes) == before.Drain(conv, []).events.value && AuthFailed !in EventsOf(envelopes)
    ensures KeepNewest(Fold(s, envelopes, failure).messages) == before.Drain(conv, []).public.messages
  {
    var told := DrainKeepsNewestMessages(before, conv, []);
    FoldMessages(s, envelopes, failure);
    KeepNewestTwice(s.messages, NotesOf(EventsOf(envelopes)));
    assert [] + told == told;
  }

  /** What the theme clears on its own it loses exactly while the host is waiting. */
  lemma ClearDisplayLosesPrompt(s: Snapshot, auth: Public)
    requires Agrees(s, auth) && (auth.authentication.Waiting() ==> auth.prompt.Some?)
    ensures Agrees(ClearDisplay(s), auth) <==> !auth.authentication.Waiting()
  {
  }

  /** A failed authentication always leaves an error as the newest message. */
  lemma FailureIsShown(s: Snapshot, failure: Text, sequence: nat)
    ensures var messages := RecordFailure(s, failure, sequence).messages;
      messages != [] && messages[|messages| - 1].level.ErrorText?
    ensures |s.messages| <= MAX_AUTHENTICATION_MESSAGES ==>
              |RecordFailure(s, failure, sequence).messages| <= MAX_AUTHENTICATION_MESSAGES
  {
  }

  // ---------------------------------------------------------------------------
  // The mutable object

  /** The part of the store that events reach; until a snapshot arrives they change nothing. */
  class Store {
    var snapshot: Option<Snapshot>
    const failure: Text

    constructor (failure: Text)
      ensures snapshot == None && this.failure == failure
    {
      snapshot := None;
      this.failure := failure;
    }

    method Initialize(state: Snapshot)
      modifies this
      ensures snapshot == Some(state)
    {
      snapshot := Some(state);
    }

    method Receive(envelope: Envelope)
      modifies this
      ensures snapshot == match old(snapshot)
                          case None => None
                          case Some(s) => Some(Reduce(s, envelope, failure))
    {
      if snapshot.Some? {
        snapshot := Some(Reduce(snapshot.value, envelope, failure));
      }
    }

    /** Events in order of arrival. */
    method ReceiveAll(envelopes: seq<Envelope>)
      modifies this
      ensures snapshot == match old(snapshot)
                          case None => None
                          case Some(s) => Some(Fold(s, envelopes, failure))
    {
      for i := 0 to |envelopes|
        invariant snapshot == match old(snapshot)
                              case None => None
                              case Some(s) => Some(Fold(s, envelopes[..i], failure))
      {
        assert envelopes[..i + 1][..i] == envelopes[..i];
        Receive(envelopes[i]);
      }
      assert envelopes[..|envelopes|] == envelopes;
    }

    method ClearAuthenticationDisplay()
      modifies this
      ensures snapshot == match old(snapshot)
                          case None => None
                          case Some(s) => Some(ClearDisplay(s))
    {
      if snapshot.Some? {
        snapshot := Some(ClearDisplay(snapshot.value));
      }
    }
  }
}

/** The greeter controller: login joined with the session catalog (fomalhaut-web, controller.rs). */
module GreeterController {
  import opened Prelude
  import opened Frontend
  import Core
  import Greetd

  const MAX_SESSIONS := 128

  /** A session of the trusted catalog: its public identifier and the command only the host knows. */
  datatype Session = Session(id: Text, command: Text)

  datatype Batch = Batch(response: Response, events: seq<Envelope>, sessionStarted: bool)

  datatype Executed = Executed(greeter: Greeter, outcome: Outcome)

  /** A request in progress: what it did so far and the details it will report. None is fatal. */
  datatype Progress = Progress(greeter: Greeter, outcome: Outcome, details: Option<seq<Event>>)

  /** None in these results is the controller's fatal error. */
  datatype Handled = Handled(greeter: Greeter, batch: Option<Batch>)

  datatype Cancelled = Cancelled(greeter: Greeter, ok: bool)

  /** The first session carrying an identifier. */
  function Find(sessions: seq<Session>, id: Text): (found: Option<nat>)
    ensures found.Some? ==> found.value < |sessions| && sessions[found.value].id == id
    ensures found.Some? ==> forall i :: 0 <= i < found.value ==> sessions[i].id != id
    ensures found.None? ==> forall i :: 0 <= i < |sessions| ==> sessions[i].id != id
  {
    if sessions == [] then None
    else if sessions[0].id == id then Some(0)
    else
      match Find(sessions[1..], id)
      case None => None
      case Some(index) =>
        assert forall i :: 1 <= i < |sessions| ==> sessions[i] == sessions[1..][i - 1];
        Some(index + 1)
  }

  function BackendOutcome(error: Option<Greetd.GreetdError>): Outcome {
    match error
    case None => Completed([])
    case Some(failure) => Refused(ProtocolError(Greetd.AsBackendError(failure)))
  }

  /** The abstract value of a `GreeterController`; the user catalog only by its size. */
  datatype Greeter = Greeter(
    client: Greetd.Client, auth: Public, login: LoginState, sessions: seq<Session>, users: nat,
    selected: Option<nat>)
  {
    function SelectedId(): Option<Text> {
      match selected
      case None => None
      case Some(index) => if index < |sessions| then Some(sessions[index].id) else None
    }

    function TakeSnapshot(): Option<Snapshot> {
      if |auth.messages| > MAX_AUTH_MESSAGES || users > MAX_USERS || |sessions| > MAX_SESSIONS then None
      else if SelectedId().Some? && !ValidLabel(SelectedId().value) then None
      else Some(Snapshot(auth.authentication, auth.prompt, auth.messages, auth.Watermark(),
                         GreeterRole(login, SelectedId())))
    }

    function CancelForLifecycle(): Cancelled {
      if !client.NeedsCancel() then
        Cancelled(this.(auth := auth.Update(client.conv.state)), true)
      else
        var ran := client.CancelActive();
        if ran.error.Some? then
          Cancelled(this.(client := ran.client), false)
        else
          var quiet := ran.client.(conv := ran.client.conv.(events := []));
          Cancelled(this.(client := quiet, auth := auth.Update(quiet.conv.state).ClearPrompt()), true)
    }

    function CancelAfterInternalFailure(): Greeter {
      var stopped := if client.NeedsCancel() then client.CancelActive().client else client;
      this.(client := stopped, auth := auth.ClearPrompt().Update(stopped.conv.state))
    }

    function RequestPower(enabled: bool, accepted: bool): Executed {
      if !enabled then
        Executed(this, Refused(MethodDisabled))
      else
        var cancelled := CancelForLifecycle();
        if !cancelled.ok || !accepted then
          Executed(cancelled.greeter, Refused(Internal))
        else
          Executed(cancelled.greeter, Completed(if client.NeedsCancel() then [AuthCancelled] else []))
    }

    function SelectSession(id: Text): Executed {
      if client.started || client.conv.state.Disconnected? || client.conv.state.Cancelling? then
        Executed(this, Refused(InvalidState))
      else
        match Find(sessions, id)
        case None => Executed(this, Refused(SessionNotFound))
        case Some(index) =>
          Executed(this.(selected := Some(index)),
                   if ValidLabel(id) then Completed([SessionSelected(id)]) else Refused(Internal))
    }

    function Execute(request: Request): Executed {
      match request
      case StateGet => Executed(this, Completed([]))
      case AuthBegin(None) => Executed(this, Refused(InvalidParams))
      case AuthBegin(Some(username)) =>
        var resets := client.conv.state.Idle? || client.conv.state.Failed?;
        var ran := client.Create(username);
        Executed(this.(client := ran.client,
                       auth := if resets then auth.Reset() else auth,
                       login := if resets then NoSession else login),
                 BackendOutcome(ran.error))
      case AuthRespond(prompt, response) =>
        if auth.corePrompt != Some(prompt) then
          Executed(this, Refused(StalePrompt))
        else
          var ran := client.Respond(prompt, response);
          Executed(this.(client := ran.client), BackendOutcome(ran.error))
      case AuthCancel =>
        var ran := client.CancelActive();
        Executed(this.(client := ran.client), BackendOutcome(ran.error))
      case PowerRequest(enabled, accepted) => RequestPower(enabled, accepted)
      case SessionSelect(session) => SelectSession(session)
    }

    /** Draining pending core events behind the details gathered so far. */
    function Collect(outcome: Outcome, details: seq<Event>): Progress {
      var drained := auth.Drain(client.conv, []);
      var collected := this.(client := client.(conv := drained.conv), auth := drained.public);
      match drained.events
      case None => Progress(collected.CancelAfterInternalFailure(), outcome, None)
      case Some(events) => Progress(collected, outcome, Some(details + events))
    }

    /** Launching the selected session once authentication has completed. */
    function Start(outcome: Outcome, details: seq<Event>): Progress {
      if outcome.Refused? || !client.conv.state.Authenticated? || sessions == [] then
        Progress(this, outcome, Some(details))
      else if selected.None? || selected.value >= |sessions| then
        Progress(this, outcome, None)
      else
        var ran := client.Launch(sessions[selected.value].command);
        var launched := this.(client := ran.client, login := if ran.error.None? then Started else StartFailed);
        launched.Collect(if ran.error.None? then outcome else BackendOutcome(ran.error),
                         if ran.error.None? then details + [SessionStarted] else details)
    }

    function Finish(previous: AuthState, outcome: Outcome, details: seq<Event>): Handled {
      var current := auth.Update(client.conv.state);
      var Enveloped(public, envelopes) := current.Envelop(Announce(previous, current.authentication, details));
      match envelopes
      case None => Handled(this.(auth := public), None)
      case Some(stamped) => Handled(this.(auth := public), Some(Batch(outcome.Answer(), stamped, client.started)))
    }

    function Conclude(previous: AuthState, outcome: Outcome): Handled {
      match Collect(outcome, outcome.Own())
      case Progress(collected, _, None) => Handled(collected, None)
      case Progress(collected, _, Some(details)) =>
        match collected.Start(outcome, details)
        case Progress(started, _, None) => Handled(started, None)
        case Progress(started, final, Some(all)) => started.Finish(previous, final, all)
    }

    function Handle(request: Request): Handled {
      if request.StateGet? then
        match TakeSnapshot()
        case None => Handled(this, None)
        case Some(snapshot) => Handled(this, Some(Batch(State(snapshot), [], client.started)))
      else
        var executed := Execute(request);
        executed.greeter.Conclude(auth.authentication, executed.outcome)
    }

    /** The catalogs the trusted host hands over: bounded, frontend-safe, and with a selection if possible. */
    ghost predicate Catalogued() {
      && |sessions| <= MAX_SESSIONS && users <= MAX_USERS
      && (forall session :: session in sessions ==> ValidLabel(session.id))
      && (selected.Some? <==> sessions != [])
      && (selected.Some? ==> selected.value < |sessions|)
    }

    /** What holds between requests. */
    ghost predicate Settled() {
      match this
      case Greeter(client, auth, login, sessions, users, selected) =>
      && Catalogued()
      && client.Inv()
      && client.conv.events == []
      && auth.Bounded()
      && auth.authentication == MapState(client.conv.state)
      && auth.Mirrors(client.conv)
    }
  }

  /** A controller over a client that has just connected. */
  function Connected(script: seq<Greetd.Response>, sessions: seq<Session>, users: nat): Greeter {
    Greeter(Greetd.IdleClient(script), FreshPublic(Core.IDLE_CONVERSATION.state), NoSession, sessions, users,
            if sessions == [] then None else Some(0))
  }

  /** The session a frontend believes selected after the events, if `before` was selected first. */
  function SelectedBy(events: seq<Event>, before: Option<Text>): Option<Text> {
    if events == [] then before
    else
      var last := events[|events| - 1];
      if last.SessionSelected? then Some(last.session) else SelectedBy(events[..|events| - 1], before)
  }

  /** What executing a request leaves for the drain. */
  ghost predicate Leaves(before: Greeter, after: Greeter) {
    match after
    case Greeter(client, auth, login, sessions, users, selected) =>
    && after.Catalogued() && sessions == before.sessions
    && client.Inv()
    && auth.Bounded() && auth.next == before.auth.next
    && before.client.wire.log <= client.wire.log
    && (client.conv.Waiting() ==>
          client.conv.JustPrompted() || (client.conv == before.client.conv && auth == before.auth))
    && client.started == before.client.started && (login.Started? ==> before.login.Started?)
  }

  /** Own events are selections, or a cancellation that leaves nothing waiting. */
  ghost predicate Explains(before: Greeter, outcome: Outcome, after: Greeter)
    requires after.Catalogued()
  {
    if outcome.Own() == [] then
      after.selected == before.selected
    else if outcome.Own() == [AuthCancelled] then
      after.selected == before.selected && !after.client.conv.Waiting()
    else
      after.selected.Some? && outcome.Own() == [SessionSelected(after.sessions[after.selected.value].id)]
  }

  lemma CancelSettles(g: Greeter)
    requires g.Settled()
    ensures var Cancelled(after, ok) := g.CancelForLifecycle();
      && after == g.(client := after.client, auth := after.auth)
      && Leaves(g, after) && (ok ==> after.Settled())
      && after.auth.next == g.auth.next
      && (if g.client.NeedsCancel() then !after.client.conv.Waiting() else after == g)
  {
    if g.client.NeedsCancel() {
      Greetd.CancelKeeps(g.client);
      Greetd.CancelLeavesNothing(g.client);
    }
  }

  lemma PowerLeaves(g: Greeter, enabled: bool, accepted: bool)
    requires g.Settled()
    ensures var Executed(after, outcome) := g.RequestPower(enabled, accepted);
      Leaves(g, after) && Explains(g, outcome, after)
  {
    CancelSettles(g);
  }

  lemma SelectLeaves(g: Greeter, id: Text)
    requires g.Settled()
    ensures var Executed(after, outcome) := g.SelectSession(id);
      Leaves(g, after) && Explains(g, outcome, after)
  {
  }

  lemma CreateLeaves(g: Greeter, username: Text)
    requires g.Settled()
    ensures var Executed(after, outcome) := g.Execute(AuthBegin(Some(username)));
      Leaves(g, after) && Explains(g, outcome, after)
  {
    Greetd.CreateKeeps(g.client, username);
  }

  lemma RespondLeaves(g: Greeter, prompt: nat, response: Text)
    requires g.Settled()
    ensures var Executed(after, outcome) := g.Execute(AuthRespond(prompt, response));
      Leaves(g, after) && Explains(g, outcome, after)
  {
    Greetd.RespondKeeps(g.client, prompt, response);
  }

  lemma ExecuteLeaves(g: Greeter, request: Request)
    requires g.Settled()
    ensures var Executed(after, outcome) := g.Execute(request);
      Leaves(g, after) && Explains(g, outcome, after)
  {
    match request
    case StateGet =>
    case AuthBegin(None) =>
    case AuthBegin(Some(username)) => CreateLeaves(g, username);
    case AuthRespond(prompt, response) => RespondLeaves(g, prompt, response);
    case AuthCancel => Greetd.CancelKeeps(g.client);
    case PowerRequest(enabled, accepted) => PowerLeaves(g, enabled, accepted);
    case SessionSelect(session) => SelectLeaves(g, session);
  }

  lemma {:induction false} SelectedByAppend(first: seq<Event>, second: seq<Event>, before: Option<Text>)
    ensures SelectedBy(first + second, before) == SelectedBy(second, SelectedBy(first, before))
    decreases |second|
  {
    if second == [] {
      assert first + second == first;
    } else {
      assert (first + second)[..|first + second| - 1] == first + second[..|second| - 1];
      SelectedByAppend(first, second[..|second| - 1], before);
    }
  }

  lemma {:induction false} NoSelection(events: seq<Event>, before: Option<Text>)
    requires forall event :: event in events ==> !event.SessionSelected?
    ensures SelectedBy(events, before) == before
    decreases |events|
  {
    if events != [] {
      NoSelection(events[..|events| - 1], before);
    }
  }

  /** A request in progress whose pending core events have all been gathered into the details. */
  ghost predicate Gathered(before: Greeter, g: Greeter, details: seq<Event>) {
    match g
    case Greeter(client, auth, login, sessions, users, selected) =>
    && g.Catalogued() && sessions == before.sessions
    && client.Inv() && client.conv.events == []
    && auth.Bounded() && auth.next == before.auth.next
    && before.client.wire.log <= client.wire.log
    && AllDetails(details)
    && SelectedBy(details, before.SelectedId()) == g.SelectedId()
    && TellsPrompt(before, g, details)
  }

  /** The details a request's batch has to tell: its own, every event greetd left pending, then a new session. */
  ghost function Told(g: Greeter, request: Request, started: bool): seq<Event> {
    if request.StateGet? then []
    else
      var Executed(after, outcome) := g.Execute(request);
      outcome.Own() + ShownAll(after.client.conv.events) + if started then [SessionStarted] else []
  }

  /** A drain reports every event left pending, in order, behind the details gathered before. */
  lemma CollectShowsAll(g: Greeter, outcome: Outcome, details: seq<Event>)
    ensures var told := g.Collect(outcome, details).details;
      told.Some? ==> told.value == details + ShownAll(g.client.conv.events)
  {
    if g.auth.Drain(g.client.conv, []).events.Some? {
      DrainShowsAll(g.auth, g.client.conv, []);
      assert [] + ShownAll(g.client.conv.events) == ShownAll(g.client.conv.events);
    }
  }

  /** What is told of a host that waits once its client has been drained. */
  ghost predicate TellsPrompt(before: Greeter, after: Greeter, details: seq<Event>) {
    && after.auth.Mirrors(after.client.conv)
    && (after.client.conv.Waiting() ==>
          && after.auth.prompt.Some?
          && (EndsInPrompt(details, after.auth.prompt.value) ||
              (after.client.conv.state == before.client.conv.state && after.auth.prompt == before.auth.prompt
               && OnlySelections(details))))
  }

  lemma CollectTellsPrompt(before: Greeter, g: Greeter, outcome: Outcome)
    requires before.Settled() && Leaves(before, g) && Explains(before, outcome, g)
    ensures var Progress(after, _, details) := g.Collect(outcome, outcome.Own());
      details.Some? ==> TellsPrompt(before, after, details.value)
  {
    var drained := g.auth.Drain(g.client.conv, []);
    if drained.events.Some? {
      DrainDelivers(g.auth, g.client.conv, []);
      OwnSelection(before, outcome, g);
    }
  }

  lemma CollectSelects(before: Greeter, g: Greeter, outcome: Outcome)
    requires g.Catalogued() && g.sessions == before.sessions && Explains(before, outcome, g)
    ensures var Progress(after, _, details) := g.Collect(outcome, outcome.Own());
      details.Some? ==>
        && AllDetails(details.value) && SessionStarted !in details.value
        && SelectedBy(details.value, before.SelectedId()) == g.SelectedId()
  {
    var drained := g.auth.Drain(g.client.conv, []);
    if drained.events.Some? {
      DrainDelivers(g.auth, g.client.conv, []);
      OwnSelection(before, outcome, g);
      ReportsSelectNothing(outcome.Own(), drained.events.value, before.SelectedId());
    }
  }

  /** A drain that shows everything empties the queue and touches nothing but the public conversation. */
  lemma CollectEmpties(g: Greeter, outcome: Outcome, details: seq<Event>)
    requires g.auth.Bounded()
    ensures var Progress(after, _, told) := g.Collect(outcome, details);
      && after.sessions == g.sessions
      && (told.Some? ==>
            && after == g.(client := g.client.(conv := g.client.conv.(events := [])), auth := after.auth)
            && after.auth.Bounded() && after.auth.next == g.auth.next)
  {
    if g.auth.Drain(g.client.conv, []).events.Some? {
      DrainDelivers(g.auth, g.client.conv, []);
    }
  }

  lemma EmptiedIsGathered(before: Greeter, g: Greeter, after: Greeter, details: seq<Event>)
    requires Leaves(before, g)
    requires after == g.(client := g.client.(conv := g.client.conv.(events := [])), auth := after.auth)
    requires after.auth.Bounded() && after.auth.next == g.auth.next
    requires AllDetails(details) && SelectedBy(details, before.SelectedId()) == g.SelectedId()
    requires TellsPrompt(before, after, details)
    ensures Gathered(before, after, details)
  {
  }

  /** Draining the client behind details that are only the request's own events. */
  lemma CollectGathers(before: Greeter, g: Greeter, outcome: Outcome)
    requires before.Settled() && Leaves(before, g) && Explains(before, outcome, g)
    ensures var Progress(after, _, details) := g.Collect(outcome, outcome.Own());
      && after.sessions == g.sessions
      && (details.Some? ==>
            && Gathered(before, after, details.value)
            && SessionStarted !in details.value && after.client.started == g.client.started)
  {
    CollectTellsPrompt(before, g, outcome);
    CollectSelects(before, g, outcome);
    CollectEmpties(g, outcome, outcome.Own());
    var Progress(after, _, details) := g.Collect(outcome, outcome.Own());
    if details.Some? {
      EmptiedIsGathered(before, g, after, details.value);
    }
  }

  lemma ReportsSelectNothing(own: seq<Event>, reports: seq<Event>, before: Option<Text>)
    requires AllConversational(reports)
    ensures SelectedBy(own + reports, before) == SelectedBy(own, before)
  {
    SelectedByAppend(own, reports, before);
    NoSelection(reports, SelectedBy(own, before));
  }

  lemma OwnSelection(before: Greeter, outcome: Outcome, g: Greeter)
    requires g.Catalogued() && Explains(before, outcome, g) && g.sessions == before.sessions
    ensures SelectedBy(outcome.Own(), before.SelectedId()) == g.SelectedId()
    ensures AllDetails(outcome.Own()) && SessionStarted !in outcome.Own()
    ensures g.client.conv.Waiting() ==> OnlySelections(outcome.Own())
  {
    if outcome.Own() != [] {
      assert outcome.Own()[..0] == [];
    }
  }

  /** The session this step started, if any, is the one that is publicly selected. */
  ghost predicate Launches(before: Greeter, after: Greeter, started: bool) {
    && (started <==> after.client.started && !before.client.started)
    && (after.login.Started? ==> started || before.login.Started?)
    && (started ==>
          && after.Catalogued() && after.selected.Some? && after.login.Started?
          && var log := after.client.wire.log;
             log != [] && log[|log| - 1] ==
               Greetd.Exchange(Greetd.StartSession(after.sessions[after.selected.value].command), Some(Greetd.Success)))
  }

  lemma LaunchLeaves(g: Greeter, command: Text, outcome: Outcome)
    requires g.Catalogued() && g.client.Inv() && g.client.conv.events == [] && g.auth.Bounded()
    requires g.client.conv.state.Authenticated?
    ensures var ran := g.client.Launch(command);
      && ran.client.Inv() && !ran.client.conv.Waiting() && g.client.wire.log <= ran.client.wire.log
      && ran.client.conv.events == []
  {
    Greetd.LaunchStarts(g.client, command);
    Greetd.LaunchKeeps(g.client, command);
  }

  lemma StartGathers(before: Greeter, g: Greeter, outcome: Outcome, details: seq<Event>)
    requires Gathered(before, g, details) && SessionStarted !in details
    requires g.client.started == before.client.started && (g.login.Started? ==> before.login.Started?)
    ensures var Progress(after, _, all) := g.Start(outcome, details);
      all.Some? ==>
        && Gathered(before, after, all.value)
        && Launches(before, after, SessionStarted in all.value)
        && all.value == details + if SessionStarted in all.value then [SessionStarted] else []
  {
    if outcome.Completed? && g.client.conv.state.Authenticated? && g.sessions != [] {
      var command := g.sessions[g.selected.value].command;
      LaunchLeaves(g, command, outcome);
      Greetd.LaunchStarts(g.client, command);
      var ran := g.client.Launch(command);
      var launched := g.(client := ran.client, login := if ran.error.None? then Started else StartFailed);
      var told := if ran.error.None? then details + [SessionStarted] else details;
      var final := if ran.error.None? then outcome else BackendOutcome(ran.error);
      RecollectGathers(before, launched, final, told);
      CollectShowsAll(launched, final, told);
      assert told + ShownAll([]) == told;
      ReportsSelectOnly(details, [SessionStarted], before.SelectedId());
      assert g.Start(outcome, details) == launched.Collect(final, told);
    }
  }

  lemma ReportsSelectOnly(own: seq<Event>, others: seq<Event>, before: Option<Text>)
    requires forall event :: event in others ==> !event.SessionSelected?
    ensures SelectedBy(own + others, before) == SelectedBy(own, before)
  {
    SelectedByAppend(own, others, before);
    NoSelection(others, SelectedBy(own, before));
  }

  /** Draining once more behind details already gathered, when nothing is left waiting. */
  lemma RecollectGathers(before: Greeter, g: Greeter, outcome: Outcome, details: seq<Event>)
    requires g.Catalogued() && g.sessions == before.sessions && g.client.Inv() && !g.client.conv.Waiting()
    requires g.auth.Bounded() && g.auth.next == before.auth.next && before.client.wire.log <= g.client.wire.log
    requires AllDetails(details) && SelectedBy(details, before.SelectedId()) == g.SelectedId()
    ensures var Progress(after, final, all) := g.Collect(outcome, details);
      && final == outcome && after.sessions == g.sessions
      && (all.Some? ==>
            && Gathered(before, after, all.value)
            && after == g.(client := after.client, auth := after.auth)
            && after.client == g.client.(conv := after.client.conv)
            && (SessionStarted in all.value <==> SessionStarted in details))
  {
    var drained := g.auth.Drain(g.client.conv, []);
    if drained.events.Some? {
      DrainDelivers(g.auth, g.client.conv, []);
      ReportsSelectNothing(details, drained.events.value, before.SelectedId());
    }
  }

  /** What a delivered batch tells about the step that produced it. */
  ghost predicate Accounts(before: Greeter, after: Greeter, envelopes: seq<Envelope>) {
    match after
    case Greeter(client, auth, login, sessions, users, selected) =>
    && after.Settled() && sessions == before.sessions
    && Continues(before.auth, auth, envelopes)
    && Publishes(before.auth, auth, EventsOf(envelopes)) && AllBelong(GreeterMode, EventsOf(envelopes))
    && before.client.wire.log <= client.wire.log
    && SelectedBy(EventsOf(envelopes), before.SelectedId()) == after.SelectedId()
    && Launches(before, after, SessionStarted in EventsOf(envelopes))
  }

  lemma FinishAccounts(before: Greeter, g: Greeter, outcome: Outcome, details: seq<Event>)
    requires before.Settled() && Gathered(before, g, details)
    requires Launches(before, g, SessionStarted in details)
    ensures var Handled(after, batch) := g.Finish(before.auth.authentication, outcome, details);
      batch.Some? ==>
        && Accounts(before, after, batch.value.events) && Announces(before.auth, after.auth, batch.value.events, details)
        && batch.value.sessionStarted == after.client.started
        && (SessionStarted in EventsOf(batch.value.events) <==> SessionStarted in details)
        && !batch.value.response.State?
  {
    var current := g.auth.Update(g.client.conv.state);
    var events := Announce(before.auth.authentication, current.authentication, details);
    var Enveloped(public, envelopes) := current.Envelop(events);
    if envelopes.Some? {
      StampContinues(current, events);
      assert Reports(before.auth, public, EventsOf(envelopes.value), details);
      AnnounceSelects(before.auth.authentication, current.authentication, details, before.SelectedId());
    }
  }

  lemma AnnounceSelects(previous: AuthState, current: AuthState, details: seq<Event>, before: Option<Text>)
    ensures SelectedBy(Announce(previous, current, details), before) == SelectedBy(details, before)
    ensures SessionStarted in Announce(previous, current, details) <==> SessionStarted in details
  {
    var change := if previous != current then [StateChanged(current)] else [];
    SelectedByAppend(change, details, before);
    NoSelection(change, before);
  }

  /** A batch whose details are all there, in order, and nothing else. */
  ghost predicate Complete(before: Greeter, after: Greeter, batch: Batch, reports: seq<Event>) {
    && Accounts(before, after, batch.events) && batch.sessionStarted == after.client.started
    && Announces(before.auth, after.auth, batch.events,
                 reports + if SessionStarted in EventsOf(batch.events) then [SessionStarted] else [])
  }

  /**
   * Every delivered request batch accounts for its step, the session it selects and the session it starts,
   * and carries all its details.
   */
  lemma HandleAccounts(g: Greeter, request: Request)
    requires g.Settled()
    ensures var Handled(after, batch) := g.Handle(request);
      batch.Some? ==>
        && Accounts(g, after, batch.value.events) && batch.value.sessionStarted == after.client.started
        && Announces(g.auth, after.auth, batch.value.events,
                     Told(g, request, SessionStarted in EventsOf(batch.value.events)))
  {
    if request.StateGet? {
      assert Reports(g.auth, g.auth, EventsOf([]), []);
    } else {
      var Executed(executed, outcome) := g.Execute(request);
      ExecuteLeaves(g, request);
      ConcludeAccounts(g, executed, outcome);
    }
  }

  lemma ConcludeAccounts(before: Greeter, g: Greeter, outcome: Outcome)
    requires before.Settled() && Leaves(before, g) && Explains(before, outcome, g)
    ensures var Handled(after, batch) := g.Conclude(before.auth.authentication, outcome);
      batch.Some? ==> Complete(before, after, batch.value, outcome.Own() + ShownAll(g.client.conv.events))
  {
    CollectGathers(before, g, outcome);
    CollectShowsAll(g, outcome, outcome.Own());
    var Progress(collected, _, reported) := g.Collect(outcome, outcome.Own());
    if reported.Some? {
      StartGathers(before, collected, outcome, reported.value);
      var Progress(started, final, all) := collected.Start(outcome, reported.value);
      if all.Some? {
        FinishAccounts(before, started, final, all.value);
      }
    }
  }

  /** A request to the conversation itself. */
  predicate Converses(request: Request) {
    request.AuthBegin? || request.AuthRespond? || request.AuthCancel?
  }

  lemma GrantedLeavesTelling(g: Greeter, request: Request)
    requires g.Settled() && Converses(request) && g.Execute(request).outcome.Completed?
    ensures var Executed(after, outcome) := g.Execute(request);
      outcome == Completed([]) && after.client.conv.Tells()
  {
    match request
    case AuthBegin(None) =>
    case AuthBegin(Some(username)) => Greetd.CreateKeeps(g.client, username);
    case AuthRespond(prompt, response) => Greetd.RespondKeeps(g.client, prompt, response);
    case AuthCancel => Greetd.CancelKeeps(g.client);
  }

  /** The start branch, if it succeeds, leaves the conversation as it was and tells of the session last. */
  lemma StartKeepsTelling(before: Greeter, g: Greeter, details: seq<Event>)
    requires Gathered(before, g, details) && SessionStarted !in details
    requires g.client.started == before.client.started && (g.login.Started? ==> before.login.Started?)
    ensures var Progress(after, final, all) := g.Start(Completed([]), details);
      all.Some? && final.Completed? ==>
        && after.client.conv == g.client.conv && after.auth == g.auth
        && all.value == details + if SessionStarted in all.value then [SessionStarted] else []
  {
    StartGathers(before, g, Completed([]), details);
    if g.client.conv.state.Authenticated? && g.sessions != [] {
      Greetd.LaunchStarts(g.client, g.sessions[g.selected.value].command);
    }
  }

  /** The events of a batch before the one that tells of a new session. */
  function BeforeStart(events: seq<Event>): seq<Event> {
    if events != [] && events[|events| - 1].SessionStarted? then events[..|events| - 1] else events
  }

  lemma StartStandsLast(change: seq<Event>, details: seq<Event>, told: seq<Event>)
    requires details != [] && !details[|details| - 1].SessionStarted?
    requires told == details || told == details + [SessionStarted]
    ensures BeforeStart(change + told) == change + details
  {
    if told != details {
      assert change + told == change + details + [SessionStarted];
    }
  }

  lemma FinishTells(before: Greeter, g: Greeter, details: seq<Event>, conv: Core.Conversation, told: seq<Event>)
    requires g.auth.Bounded() && conv.Tells() && g.client.conv == conv.(events := [])
    requires details == ShownAll(conv.events) && (told == details || told == details + [SessionStarted])
    requires conv.Waiting() ==> g.auth.prompt.Some? && EndsInPrompt(details, g.auth.prompt.value)
    ensures var Handled(after, batch) := g.Finish(before.auth.authentication, Completed([]), told);
      batch.Some? ==> TellsState(after.auth, BeforeStart(EventsOf(batch.value.events)))
  {
    var current := g.auth.Update(g.client.conv.state);
    var change := Announce(before.auth.authentication, current.authentication, []);
    var events := Announce(before.auth.authentication, current.authentication, told);
    assert details[|details| - 1] == Shown(conv.events[|conv.events| - 1]);
    assert events == change + told;
    StartStandsLast(change, details, told);
    assert TellsState(current, change + details);
    if current.Envelop(events).envelopes.Some? {
      StampContinues(current, events);
    }
  }

  /**
   * A granted request to the conversation always tells where it led, before it tells of a session: the
   * prompt the host now waits on, the success, the failure or the cancellation.
   */
  lemma GrantedRequestTellsState(g: Greeter, request: Request)
    requires g.Settled() && Converses(request)
    ensures var Handled(after, batch) := g.Handle(request);
      batch.Some? && batch.value.response.Success? ==> TellsState(after.auth, BeforeStart(EventsOf(batch.value.events)))
  {
    var Executed(executed, outcome) := g.Execute(request);
    if outcome.Completed? {
      ExecuteLeaves(g, request);
      GrantedLeavesTelling(g, request);
      ConcludeTells(g, executed);
    } else {
      RefusedStaysRefused(g, executed, outcome);
    }
  }

  /** A refused request is answered with its error, whatever the drain yields. */
  lemma RefusedStaysRefused(before: Greeter, g: Greeter, outcome: Outcome)
    requires outcome.Refused?
    ensures var batch := g.Conclude(before.auth.authentication, outcome).batch;
      batch.Some? ==> batch.value.response == Failure(outcome.code)
  {
  }

  /** A greeter whose telling conversation has just been drained into the details. */
  ghost predicate IsDrained(before: Greeter, conv: Core.Conversation, g: Greeter, details: seq<Event>) {
    && Gathered(before, g, details) && SessionStarted !in details
    && g.client.started == before.client.started && (g.login.Started? ==> before.login.Started?)
    && conv.Tells() && g.client.conv == conv.(events := []) && details == ShownAll(conv.events)
    && (conv.Waiting() ==> g.auth.prompt.Some? && EndsInPrompt(details, g.auth.prompt.value))
  }

  lemma StartTells(before: Greeter, conv: Core.Conversation, g: Greeter, details: seq<Event>)
    requires IsDrained(before, conv, g, details)
    ensures var Progress(started, final, all) := g.Start(Completed([]), details);
      all.Some? && final.Completed? ==>
        var Handled(after, batch) := started.Finish(before.auth.authentication, final, all.value);
        batch.Some? ==> TellsState(after.auth, BeforeStart(EventsOf(batch.value.events)))
  {
    StartKeepsTelling(before, g, details);
    var Progress(started, final, all) := g.Start(Completed([]), details);
    if all.Some? && final.Completed? {
      FinalKeepsOwn(g, details);
      FinishTells(before, started, details, conv, all.value);
    }
  }

  lemma FinalKeepsOwn(g: Greeter, details: seq<Event>)
    ensures var final := g.Start(Completed([]), details).outcome; final.Completed? ==> final == Completed([])
  {
  }

  lemma CollectDrains(before: Greeter, g: Greeter)
    requires before.Settled() && Leaves(before, g) && Explains(before, Completed([]), g) && g.client.conv.Tells()
    ensures var Progress(collected, outcome, reported) := g.Collect(Completed([]), []);
      outcome == Completed([]) && (reported.Some? ==> IsDrained(before, g.client.conv, collected, reported.value))
  {
    CollectGathers(before, g, Completed([]));
    CollectShowsAll(g, Completed([]), []);
    if g.Collect(Completed([]), []).details.Some? {
      DrainDelivers(g.auth, g.client.conv, []);
    }
  }

  lemma ConcludeTells(before: Greeter, g: Greeter)
    requires before.Settled() && Leaves(before, g) && Explains(before, Completed([]), g) && g.client.conv.Tells()
    ensures var Handled(after, batch) := g.Conclude(before.auth.authentication, Completed([]));
      batch.Some? && batch.value.response.Success? ==> TellsState(after.auth, BeforeStart(EventsOf(batch.value.events)))
  {
    CollectDrains(before, g);
    var Progress(collected, _, reported) := g.Collect(Completed([]), []);
    if reported.Some? {
      StartTells(before, g.client.conv, collected, reported.value);
    }
  }

  /** A snapshot can always be taken; it names the last sequence handed out and the selected session. */
  lemma StateGetAnswers(g: Greeter)
    requires g.Settled()
    ensures g.Handle(StateGet) ==
            Handled(g, Some(Batch(State(Snapshot(
              g.auth.authentication, g.auth.prompt, g.auth.messages, g.auth.next - 1,
              GreeterRole(g.login, if g.sessions == [] then None else Some(g.sessions[g.selected.value].id)))),
              [], g.client.started)))
  {
  }

  /**
   * A started login is not absorbing in the controller: its public login state survives a request
   * exactly unless the request is a granted power operation, which enters the start branch again.
   */
  lemma StartedLoginSurvives(g: Greeter, request: Request)
    requires g.Settled() && g.client.started && g.login.Started?
    ensures g.Handle(request).greeter.login.Started? <==> !(request == PowerRequest(true, true) && g.sessions != [])
    ensures g.Handle(request).greeter.client.started
  {
    if !request.StateGet? {
      var Executed(executed, outcome) := g.Execute(request);
      StartedRequest(g, request);
      var Progress(collected, _, reported) := executed.Collect(outcome, outcome.Own());
      assert collected.login.Started? && collected.client == g.client;
    }
  }

  lemma AcceptedLoginStarts()
    ensures var started := Connected([Greetd.Success, Greetd.Success], [Session([97], [98])], 0).Handle(AuthBegin(Some([97])));
      && started.batch.Some? && started.batch.value.sessionStarted
      && started.greeter.client.started && started.greeter.login.Started? && started.greeter.sessions != []
  {
  }

  /** Such a login exists: greetd accepts it and starts its session, and a power request marks it failed. */
  lemma StartedLoginCanFail()
    ensures var started := Connected([Greetd.Success, Greetd.Success], [Session([97], [98])], 0).Handle(AuthBegin(Some([97])));
      && started.batch.Some? && started.batch.value.sessionStarted
      && started.greeter.client.started && started.greeter.login.Started?
      && !started.greeter.Handle(PowerRequest(true, true)).greeter.login.Started?
  {
    var g := Connected([Greetd.Success, Greetd.Success], [Session([97], [98])], 0);
    ConnectedIsSettled([Greetd.Success, Greetd.Success], [Session([97], [98])], 0);
    HandleAccounts(g, AuthBegin(Some([97])));
    AcceptedLoginStarts();
    StartedLoginSurvives(g.Handle(AuthBegin(Some([97]))).greeter, PowerRequest(true, true));
  }

  lemma StartedRequest(g: Greeter, request: Request)
    requires g.Settled() && g.client.started && !request.StateGet?
    ensures g.Execute(request).greeter == g
    ensures g.Execute(request).outcome == Completed([]) <==> request == PowerRequest(true, true)
    ensures request != PowerRequest(true, true) ==> g.Execute(request).outcome.Refused?
  {
  }

  lemma ConnectedIsSettled(script: seq<Greetd.Response>, sessions: seq<Session>, users: nat)
    requires |sessions| <= MAX_SESSIONS && users <= MAX_USERS
    requires forall session :: session in sessions ==> ValidLabel(session.id)
    ensures Connected(script, sessions, users).Settled()
  {
    assert Greetd.IdleClient(script).Inv();
  }

  // ---------------------------------------------------------------------------
  // The mutable object

  class GreeterController {
    const client: Greetd.GreeterClient
    const auth: AuthPublicState
    const sessions: seq<Session>
    const users: nat
    var login: LoginState
    var selectedSession: Option<nat>

    /** The objects this controller owns. */
    ghost function Repr(): set<object> {
      {this, client, client.conversation, client.transport, auth, auth.sequences}
    }

    ghost function Model(): Greeter
      reads Repr()
    {
      Greeter(client.Model(), auth.Model(), login, sessions, users, selectedSession)
    }

    constructor (script: seq<Greetd.Response>, sessions: seq<Session>, users: nat)
      ensures Model() == Connected(script, sessions, users)
      ensures fresh(Repr() - {this})
    {
      client := new Greetd.GreeterClient(script);
      auth := new AuthPublicState(Core.Idle);
      login := NoSession;
      this.sessions, this.users := sessions, users;
      selectedSession := if sessions == [] then None else Some(0);
    }

    method TakeSnapshot() returns (snapshot: Option<Snapshot>)
      ensures snapshot == Model().TakeSnapshot()
    {
      if |auth.messages| > MAX_AUTH_MESSAGES || users > MAX_USERS || |sessions| > MAX_SESSIONS {
        return None;
      }
      var id := None;
      if selectedSession.Some? && selectedSession.value < |sessions| {
        id := Some(sessions[selectedSession.value].id);
        if !ValidLabel(id.value) {
          return None;
        }
      }
      return Some(Snapshot(auth.authentication, auth.prompt, auth.messages, auth.sequences.Watermark(),
                           GreeterRole(login, id)));
    }

    method Handle(request: Request) returns (batch: Option<Batch>)
      modifies Repr()
      ensures Handled(Model(), batch) == old(Model()).Handle(request)
    {
      if request.StateGet? {
        var snapshot := TakeSnapshot();
        return if snapshot.None? then None else Some(Batch(State(snapshot.value), [], client.sessionStarted));
      }
      var previous := auth.authentication;
      var outcome := Execute(request);
      batch := Conclude(previous, outcome);
    }

    method Conclude(previous: AuthState, outcome: Outcome) returns (batch: Option<Batch>)
      modifies Repr()
      ensures Handled(Model(), batch) == old(Model()).Conclude(previous, outcome)
    {
      var details := Collect(outcome.Own());
      if details.None? {
        return None;
      }
      var final, all := Start(outcome, details.value);
      if all.None? {
        return None;
      }
      batch := FinishBatch(previous, final, all.value);
    }

    /** Drains core events behind `details`, cancelling when one is not safe to show. */
    method Collect(details: seq<Event>) returns (all: Option<seq<Event>>)
      modifies Repr()
      ensures forall outcome :: Progress(Model(), outcome, all) == old(Model()).Collect(outcome, details)
    {
      var events := auth.DrainCoreEvents(client.conversation);
      if events.None? {
        CancelAfterInternalFailure();
        return None;
      }
      return Some(details + events.value);
    }

    method Start(outcome: Outcome, details: seq<Event>) returns (final: Outcome, all: Option<seq<Event>>)
      modifies Repr()
      ensures Progress(Model(), final, all) == old(Model()).Start(outcome, details)
    {
      if outcome.Refused? || client.conversation.state != Core.Authenticated || sessions == [] {
        return outcome, Some(details);
      }
      if selectedSession.None? || selectedSession.value >= |sessions| {
        return outcome, None;
      }
      login := StartingSession;
      var error := client.Launch(sessions[selectedSession.value].command);
      if error.None? {
        login := Started;
        final := outcome;
        all := Collect(details + [SessionStarted]);
      } else {
        login := StartFailed;
        final := BackendOutcome(error);
        all := Collect(details);
      }
    }

    method FinishBatch(previous: AuthState, outcome: Outcome, details: seq<Event>) returns (batch: Option<Batch>)
      modifies Repr()
      ensures Handled(Model(), batch) == old(Model()).Finish(previous, outcome, details)
    {
      auth.UpdateState(client.conversation.state);
      var current := auth.authentication;
      var envelopes := auth.EnvelopeEvents((if previous != current then [StateChanged(current)] else []) + details);
      return if envelopes.None? then None
             else Some(Batch(outcome.Answer(), envelopes.value, client.sessionStarted));
    }

    method Execute(request: Request) returns (outcome: Outcome)
      modifies Repr()
      ensures Executed(Model(), outcome) == old(Model()).Execute(request)
    {
      match request
      case StateGet =>
        return Completed([]);
      case AuthBegin(None) =>
        return Refused(InvalidParams);
      case AuthBegin(Some(username)) =>
        if client.conversation.state == Core.Idle || client.conversation.state == Core.Failed {
          auth.ResetConversation();
          login := NoSession;
        }
        var error := client.Create(username);
        return BackendOutcome(error);
      case AuthRespond(prompt, response) =>
        if auth.corePrompt != Some(prompt) {
          return Refused(StalePrompt);
        }
        var error := client.Respond(prompt, response);
        return BackendOutcome(error);
      case AuthCancel =>
        var error := client.CancelActive();
        return BackendOutcome(error);
      case PowerRequest(enabled, accepted) =>
        outcome := RequestPower(enabled, accepted);
      case SessionSelect(session) =>
        outcome := SelectSession(session);
    }

    method RequestPower(enabled: bool, accepted: bool) returns (outcome: Outcome)
      modifies Repr()
      ensures Executed(Model(), outcome) == old(Model()).RequestPower(enabled, accepted)
    {
      if !enabled {
        return Refused(MethodDisabled);
      }
      var cancelled := client.NeedsCancel();
      var ok := CancelForLifecycle();
      if !ok || !accepted {
        return Refused(Internal);
      }
      return Completed(if cancelled then [AuthCancelled] else []);
    }

    method SelectSession(id: Text) returns (outcome: Outcome)
      modifies Repr()
      ensures Executed(Model(), outcome) == old(Model()).SelectSession(id)
    {
      if client.sessionStarted || client.conversation.state in {Core.Disconnected, Core.Cancelling} {
        return Refused(InvalidState);
      }
      var index := Find(sessions, id);
      if index.None? {
        return Refused(SessionNotFound);
      }
      selectedSession := index;
      return if ValidLabel(id) then Completed([SessionSelected(id)]) else Refused(Internal);
    }

    method CancelForLifecycle() returns (ok: bool)
      modifies Repr()
      ensures Cancelled(Model(), ok) == old(Model()).CancelForLifecycle()
    {
      if !client.NeedsCancel() {
        auth.UpdateState(client.conversation.state);
        return true;
      }
      var error := client.CancelActive();
      if error.Some? {
        return false;
      }
      auth.DiscardCoreEvents(client.conversation);
      auth.UpdateState(client.conversation.state);
      auth.ClearPrompt();
      return true;
    }

    method CancelAfterInternalFailure()
      modifies Repr()
      ensures Model() == old(Model()).CancelAfterInternalFailure()
    {
      if client.NeedsCancel() {
        var _ := client.CancelActive();
      }
      auth.ClearPrompt();
      auth.UpdateState(client.conversation.state);
    }
  }
}

/** The locker controller: reauthentication joined with the session-lock lifecycle (fomalhaut-web, controller.rs). */
module LockerController {
  import opened Prelude
  import opened Frontend
  import opened PamBackend
  import Core

  datatype Batch = Batch(response: Response, events: seq<Envelope>, unlockAuthorized: bool, trustedFallback: bool)

  datatype LifecycleBatch = LifecycleBatch(events: seq<Envelope>, unlockAuthorized: bool)

  datatype Executed = Executed(locker: Locker, outcome: Outcome)

  /** None in these results is the controller's fatal error. */
  datatype Handled = Handled(locker: Locker, batch: Option<Batch>)

  datatype Lifecycle = Lifecycle(locker: Locker, batch: Option<LifecycleBatch>)

  datatype Marked = Marked(locker: Locker, events: Option<seq<Envelope>>)

  datatype Cancelled = Cancelled(locker: Locker, ok: bool)

  predicate OutOfService(state: Core.AuthState) {
    state.Failed? || state.Disconnected?
  }

  /** The abstract value of a `LockerController`. */
  datatype Locker = Locker(client: Backend, auth: Public, lock: LockState) {
    function TakeSnapshot(): Option<Snapshot> {
      if |auth.messages| > MAX_AUTH_MESSAGES then None
      else Some(Snapshot(auth.authentication, auth.prompt, auth.messages, auth.Watermark(), LockerRole(lock)))
    }

    function Mark(allowed: bool, next: LockState, event: Event): Marked {
      if !allowed then
        Marked(this, None)
      else
        var Enveloped(public, envelopes) := auth.Envelop([event]);
        Marked(this.(lock := next, auth := public), envelopes)
    }

    function MarkAcquired(): Marked {
      Mark(lock.Acquiring?, Locked, LockAcquired)
    }

    function MarkFailed(): Marked {
      Mark(!lock.LockBroken? && !lock.Released?, LockBroken, LockFailed)
    }

    function MarkReleased(): Marked {
      Mark(lock.Unlocking?, Released, LockReleased)
    }

    /** Consuming an authorization; refused unless locked and authenticated. */
    function BeginUnlock(): Option<Locker> {
      if !lock.Locked? || !auth.authentication.Authenticated? then None
      else Some(this.(lock := Unlocking))
    }

    function CancelForLifecycle(): Cancelled {
      if !client.conv.NeedsCancel() then
        Cancelled(this.(auth := auth.Update(client.conv.state)), true)
      else
        var ran := client.Cancel();
        if ran.error.Some? then
          Cancelled(this.(client := ran.backend), false)
        else
          var quiet := ran.backend.(conv := ran.backend.conv.(events := []));
          Cancelled(this.(client := quiet, auth := auth.Update(quiet.conv.state).ClearPrompt()), true)
    }

    function CancelAfterInternalFailure(): Locker {
      var stopped := if client.conv.NeedsCancel() then client.Cancel().backend else client;
      this.(client := stopped, auth := auth.ClearPrompt().Update(stopped.conv.state))
    }

    function RequestPower(enabled: bool, accepted: bool): Executed {
      if !enabled then
        Executed(this, Refused(MethodDisabled))
      else
        var cancelled := CancelForLifecycle();
        if !cancelled.ok || !accepted then
          Executed(cancelled.locker, Refused(Internal))
        else
          Executed(cancelled.locker, Completed(if client.conv.NeedsCancel() then [AuthCancelled] else []))
    }

    function Execute(request: Request): Executed {
      if !lock.Locked? then
        Executed(this, Refused(InvalidState))
      else
        match request
        case StateGet => Executed(this, Completed([]))
        case AuthBegin(username) =>
          if username.Some? then
            Executed(this, Refused(InvalidParams))
          else
            var reset := if client.conv.state.Idle? || client.conv.state.Failed? then auth.Reset() else auth;
            var ran := client.BeginReauth();
            Executed(this.(client := ran.backend, auth := reset), AsOutcome(ran.error))
        case AuthRespond(prompt, response) =>
          if auth.corePrompt != Some(prompt) then
            Executed(this, Refused(StalePrompt))
          else
            var ran := client.Respond(prompt, response);
            Executed(this.(client := ran.backend), AsOutcome(ran.error))
        case AuthCancel =>
          var ran := client.Cancel();
          Executed(this.(client := ran.backend), AsOutcome(ran.error))
        case PowerRequest(enabled, accepted) => RequestPower(enabled, accepted)
        case SessionSelect(_) => Executed(this, Refused(MethodDisabled))
    }

    /** Draining what a request left pending into the public state; `ok` is false when an event was unsafe. */
    function Collect(): (Locker, Option<seq<Event>>) {
      var drained := auth.Drain(client.conv, []);
      var collected := this.(client := client.(conv := drained.conv), auth := drained.public);
      match drained.events
      case None => (collected.CancelAfterInternalFailure(), None)
      case Some(events) => (collected.(auth := collected.auth.Update(drained.conv.state)), Some(events))
    }

    /** The batch for an executed request, from the state before it. */
    function Conclude(previous: Locker, outcome: Outcome): Handled {
      var (collected, reported) := Collect();
      match reported
      case None => Handled(collected, None)
      case Some(events) =>
        var current := collected.auth.authentication;
        var Enveloped(public, envelopes) :=
          collected.auth.Envelop(Announce(previous.auth.authentication, current, outcome.Own() + events));
        match envelopes
        case None => Handled(collected.(auth := public), None)
        case Some(stamped) =>
          Handled(collected.(auth := public), Some(Batch(
            outcome.Answer(),
            stamped,
            outcome.Completed? && !previous.auth.authentication.Authenticated? && current.Authenticated?,
            outcome.Refused? && !OutOfService(previous.client.conv.state) && OutOfService(collected.client.conv.state))))
    }

    function Handle(request: Request): Handled {
      if request.StateGet? then
        match TakeSnapshot()
        case None => Handled(this, None)
        case Some(snapshot) => Handled(this, Some(Batch(State(snapshot), [], false, false)))
      else
        var executed := Execute(request);
        executed.locker.Conclude(this, executed.outcome)
    }

    function FinishLifecycle(previous: AuthState, details: seq<Event>): Lifecycle {
      var Enveloped(public, envelopes) := auth.Envelop(Announce(previous, auth.authentication, details));
      match envelopes
      case None => Lifecycle(this.(auth := public), None)
      case Some(stamped) =>
        Lifecycle(this.(auth := public),
                  Some(LifecycleBatch(stamped, !previous.Authenticated? && auth.authentication.Authenticated?)))
    }

    function PrepareForSleep(): Lifecycle {
      if !lock.Locked? then
        Lifecycle(this, Some(LifecycleBatch([], false)))
      else
        var cancelled := CancelForLifecycle();
        if !cancelled.ok then
          Lifecycle(cancelled.locker, None)
        else
          cancelled.locker.FinishLifecycle(
            auth.authentication, if client.conv.NeedsCancel() then [AuthCancelled] else [])
    }

    function ResumeAfterSleep(): Lifecycle {
      if !lock.Locked? then
        Lifecycle(this, Some(LifecycleBatch([], false)))
      else
        var cancelled := CancelForLifecycle();
        if !cancelled.ok then
          Lifecycle(cancelled.locker, None)
        else
          var ran := cancelled.locker.client.BeginReauth();
          var begun := cancelled.locker.(client := ran.backend, auth := cancelled.locker.auth.Reset());
          if ran.error.Some? then
            Lifecycle(begun.CancelAfterInternalFailure(), None)
          else
            var (collected, reported) := begun.Collect();
            match reported
            case None => Lifecycle(collected, None)
            case Some(events) =>
              collected.FinishLifecycle(
                auth.authentication, (if client.conv.NeedsCancel() then [AuthCancelled] else []) + events)
    }

    /** What holds between commands, apart from the tie between lock and authentication. */
    ghost predicate Settled() {
      match this
      case Locker(client, auth, lock) =>
      && client.Inv()
      && client.conv.events == []
      && auth.Bounded()
      && auth.authentication == MapState(client.conv.state)
      && auth.Mirrors(client.conv)
    }

    /** What holds between commands: a lock not yet unlocking has not been authenticated for. */
    ghost predicate Inv() {
      Settled() && (lock.Acquiring? || lock.Locked? ==> !auth.authentication.Authenticated?)
    }
  }

  /** What executing a request leaves for the drain. */
  ghost predicate Leaves(before: Locker, after: Locker) {
    match after
    case Locker(client, auth, lock) =>
    && client.Inv()
    && auth.Bounded()
    && lock == before.lock && auth.next == before.auth.next
    && before.client.world.log <= client.world.log
    && (client.conv.Waiting() ==>
          client.conv.JustPrompted() || (client.conv == before.client.conv && auth == before.auth))
    && (client.conv.state.Authenticated? ==>
          client == before.client || FreshSuccess(before.client.world.log, client.world.log))
  }

  /** The own events of a completed request are reported only where nothing is left waiting. */
  ghost predicate Explains(outcome: Outcome, after: Locker) {
    match outcome
    case Completed(events) => AllConversational(events) && (events == [] || after.client.conv.state.Idle?)
    case Refused(_) => true
  }

  /** What a delivered batch tells about the step that produced it. */
  ghost predicate Accounts(before: Locker, after: Locker, envelopes: seq<Envelope>, unlock: bool) {
    match after
    case Locker(client, auth, lock) =>
    && after.Settled()
    && lock == before.lock
    && Continues(before.auth, auth, envelopes)
    && Publishes(before.auth, auth, EventsOf(envelopes)) && AllBelong(LockerMode, EventsOf(envelopes))
    && before.client.world.log <= client.world.log
    && (unlock <==> !before.auth.authentication.Authenticated? && auth.authentication.Authenticated?)
    && (unlock ==> FreshSuccess(before.client.world.log, client.world.log))
    && (!before.lock.Locked? ==> client == before.client)
  }

  /** The details a request's batch has to tell: its own, then every event the backend has left pending. */
  ghost function Told(l: Locker, request: Request): seq<Event> {
    if request.StateGet? then []
    else
      var Executed(after, outcome) := l.Execute(request);
      outcome.Own() + ShownAll(after.client.conv.events)
  }

  /** What preparing for sleep has to tell: that a transaction was cancelled, if one was. */
  ghost function SleepTold(l: Locker): seq<Event> {
    if l.lock.Locked? && l.client.conv.NeedsCancel() then [AuthCancelled] else []
  }

  /** What resuming has to tell: the cancellation, if any, then every event of the fresh transaction. */
  ghost function ResumeTold(l: Locker): seq<Event> {
    SleepTold(l)
    + if l.lock.Locked? then ShownAll(l.CancelForLifecycle().locker.client.BeginReauth().backend.conv.events) else []
  }

  lemma CancelSettles(l: Locker)
    requires l.Settled()
    ensures var Cancelled(after, ok) := l.CancelForLifecycle();
      && ok && after.Settled() && after.lock == l.lock && after.auth.next == l.auth.next
      && l.client.world.log <= after.client.world.log
      && NoBegin(after.client.world.log, |l.client.world.log|)
      && (if l.client.conv.NeedsCancel() then after.client.conv.state.Idle? else after == l)
  {
    CancelKeeps(l.client);
  }

  lemma PowerLeaves(l: Locker, enabled: bool, accepted: bool)
    requires l.Settled() && l.lock.Locked?
    ensures var Executed(after, outcome) := l.Execute(PowerRequest(enabled, accepted));
      Leaves(l, after) && Explains(outcome, after) && (after.client.conv.state.Authenticated? ==> after.client == l.client)
  {
    CancelSettles(l);
  }

  /** A request to the conversation itself. */
  predicate Converses(request: Request) {
    request.AuthBegin? || request.AuthRespond? || request.AuthCancel?
  }

  /** What executing a request hands over; success of the backend is never reported as an error. */
  lemma ExecuteLeaves(l: Locker, request: Request)
    requires l.Settled()
    ensures var Executed(after, outcome) := l.Execute(request);
      && Leaves(l, after) && Explains(outcome, after)
      && (after.client.conv.state.Authenticated? && after.client != l.client ==> outcome.Completed?)
      && (!l.lock.Locked? ==> after == l)
      && (Converses(request) && outcome.Completed? ==> outcome.Own() == [] && after.client.conv.Tells())
  {
    if l.lock.Locked? {
      match request
      case AuthBegin(_) => BeginKeeps(l.client);
      case AuthRespond(prompt, response) => RespondKeeps(l.client, prompt, response);
      case AuthCancel => CancelKeeps(l.client);
      case PowerRequest(enabled, accepted) => PowerLeaves(l, enabled, accepted);
      case StateGet =>
      case SessionSelect(_) =>
    }
  }

  /** Draining what a step left settles the controller, unless an event was not safe to show. */
  lemma CollectSettles(before: Locker, l: Locker)
    requires before.Settled() && Leaves(before, l)
    ensures var (after, reported) := l.Collect();
      && after.lock == l.lock && l.client.world.log <= after.client.world.log
      && (reported.Some? ==>
            && after.Settled() && after.client == l.client.(conv := l.client.conv.(events := []))
            && after.auth.next == l.auth.next
            && AllConversational(reported.value)
            && (after.auth.authentication.Waiting() ==>
                  && after.auth.prompt.Some?
                  && (if l.client.conv.events == []
                      then reported.value == [] && l.client.conv == before.client.conv && after.auth == before.auth
                      else reported.value != []
                           && reported.value[|reported.value| - 1] == AuthPrompt(after.auth.prompt.value))))
  {
    var drained := l.auth.Drain(l.client.conv, []);
    DrainPops(l.auth, l.client.conv, []);
    if drained.events.Some? {
      DrainDelivers(l.auth, l.client.conv, []);
    } else {
      CancelKeeps(l.client.(conv := drained.conv));
    }
  }

  /** A drain reports every event left pending, in order. */
  lemma CollectShowsAll(l: Locker)
    ensures l.Collect().1.Some? ==> l.Collect().1.value == ShownAll(l.client.conv.events)
  {
    if l.auth.Drain(l.client.conv, []).events.Some? {
      DrainShowsAll(l.auth, l.client.conv, []);
      assert [] + ShownAll(l.client.conv.events) == ShownAll(l.client.conv.events);
    }
  }

  /** Stamping the announcement of settled details accounts for the whole step. */
  lemma AnnounceAccounts(before: Locker, after: Locker, details: seq<Event>)
    requires before.Settled() && after.Settled() && after.lock == before.lock && after.auth.next == before.auth.next
    requires before.client.world.log <= after.client.world.log
    requires after.client.conv.state.Authenticated? && !before.client.conv.state.Authenticated? ==>
               FreshSuccess(before.client.world.log, after.client.world.log)
    requires !before.lock.Locked? ==> after.client == before.client
    requires AllConversational(details)
    requires Reports(before.auth, after.auth,
                     Announce(before.auth.authentication, after.auth.authentication, details), details)
    ensures var events := Announce(before.auth.authentication, after.auth.authentication, details);
      var Enveloped(public, envelopes) := after.auth.Envelop(events);
      envelopes.Some? ==>
        && Accounts(before, after.(auth := public), envelopes.value,
                    !before.auth.authentication.Authenticated? && after.auth.authentication.Authenticated?)
        && Announces(before.auth, public, envelopes.value, details)
  {
    var events := Announce(before.auth.authentication, after.auth.authentication, details);
    if after.auth.Envelop(events).envelopes.Some? {
      StampContinues(after.auth, events);
      var public := after.auth.Envelop(events).public;
      assert Reports(before.auth, public, EventsOf(after.auth.Envelop(events).envelopes.value), details);
    }
  }

  lemma ConcludeAccounts(before: Locker, current: Locker, outcome: Outcome)
    requires before.Settled() && Leaves(before, current) && Explains(outcome, current)
    requires current.client.conv.state.Authenticated? && current.client != before.client ==> outcome.Completed?
    requires !before.lock.Locked? ==> current == before
    ensures var Handled(after, batch) := current.Conclude(before, outcome);
      && after.lock == before.lock && before.client.world.log <= after.client.world.log
      && (batch.Some? ==>
            && Accounts(before, after, batch.value.events, batch.value.unlockAuthorized)
            && Announces(before.auth, after.auth, batch.value.events, outcome.Own() + ShownAll(current.client.conv.events)))
  {
    CollectSettles(before, current);
    CollectShowsAll(current);
    var (collected, reported) := current.Collect();
    if reported.Some? {
      AnnounceAccounts(before, collected, outcome.Own() + reported.value);
    }
  }

  /** Every delivered request batch accounts for its step and carries all its details; a fatal error never touches the lock. */
  lemma HandleAccounts(l: Locker, request: Request)
    requires l.Settled()
    ensures var Handled(after, batch) := l.Handle(request);
      && after.lock == l.lock && l.client.world.log <= after.client.world.log
      && (batch.Some? ==>
            && Accounts(l, after, batch.value.events, batch.value.unlockAuthorized)
            && Announces(l.auth, after.auth, batch.value.events, Told(l, request)))
  {
    if request.StateGet? {
      assert Reports(l.auth, l.auth, EventsOf([]), []);
    } else {
      ExecuteLeaves(l, request);
      ConcludeAccounts(l, l.Execute(request).locker, l.Execute(request).outcome);
    }
  }

  /** A public snapshot can always be taken, and it carries the last sequence handed out. */
  lemma StateGetAnswers(l: Locker)
    requires l.Settled()
    ensures l.Handle(StateGet) ==
            Handled(l, Some(Batch(State(Snapshot(l.auth.authentication, l.auth.prompt, l.auth.messages,
                                                 l.auth.next - 1, LockerRole(l.lock))), [], false, false)))
  {
  }

  lemma PrepareAccounts(l: Locker)
    requires l.Settled()
    ensures var Lifecycle(after, batch) := l.PrepareForSleep();
      && after.lock == l.lock && l.client.world.log <= after.client.world.log
      && NoBegin(after.client.world.log, |l.client.world.log|)
      && (batch.Some? ==>
            && Accounts(l, after, batch.value.events, batch.value.unlockAuthorized)
            && Announces(l.auth, after.auth, batch.value.events, SleepTold(l)))
  {
    if l.lock.Locked? {
      CancelSettles(l);
      AnnounceAccounts(l, l.CancelForLifecycle().locker, SleepTold(l));
    } else {
      assert Reports(l.auth, l.auth, EventsOf([]), []);
    }
  }

  /** Resuming opens a fresh transaction, whatever was active before. */
  lemma ResumeLeaves(l: Locker)
    requires l.Settled()
    ensures var quiet := l.CancelForLifecycle().locker;
      var ran := quiet.client.BeginReauth();
      var begun := quiet.(client := ran.backend, auth := quiet.auth.Reset());
      && l.CancelForLifecycle().ok && quiet.Settled() && !quiet.client.conv.NeedsCancel()
      && Leaves(quiet, begun) && ran.backend.Inv()
      && quiet.lock == l.lock && quiet.auth.next == l.auth.next
      && l.client.world.log <= quiet.client.world.log <= begun.client.world.log
  {
    CancelSettles(l);
    BeginKeeps(l.CancelForLifecycle().locker.client);
  }

  /** Whatever the fresh transaction has reported so far is announced behind the cancellation. */
  lemma ResumedAccounts(before: Locker, quiet: Locker, begun: Locker, own: seq<Event>)
    requires before.Settled() && quiet.Settled() && Leaves(quiet, begun) && before.lock.Locked?
    requires quiet.lock == before.lock && quiet.auth.next == before.auth.next
    requires before.client.world.log <= quiet.client.world.log && !quiet.client.conv.NeedsCancel()
    requires own == [] || own == [AuthCancelled]
    ensures var (collected, reported) := begun.Collect();
      && collected.lock == before.lock && before.client.world.log <= collected.client.world.log
      && (reported.Some? ==>
            var finished := collected.FinishLifecycle(before.auth.authentication, own + reported.value);
            && finished.locker.lock == before.lock
            && before.client.world.log <= finished.locker.client.world.log
            && (finished.batch.Some? ==>
                  && Accounts(before, finished.locker, finished.batch.value.events, finished.batch.value.unlockAuthorized)
                  && Announces(before.auth, finished.locker.auth, finished.batch.value.events,
                               own + ShownAll(begun.client.conv.events))))
  {
    CollectSettles(quiet, begun);
    CollectShowsAll(begun);
    var (collected, reported) := begun.Collect();
    if reported.Some? {
      AnnounceAccounts(before, collected, own + reported.value);
    }
  }

  lemma ResumeAccounts(l: Locker)
    requires l.Settled()
    ensures var Lifecycle(after, batch) := l.ResumeAfterSleep();
      && after.lock == l.lock && l.client.world.log <= after.client.world.log
      && (batch.Some? ==>
            && Accounts(l, after, batch.value.events, batch.value.unlockAuthorized)
            && Announces(l.auth, after.auth, batch.value.events, ResumeTold(l)))
  {
    if l.lock.Locked? {
      ResumeLeaves(l);
      var quiet := l.CancelForLifecycle().locker;
      var ran := quiet.client.BeginReauth();
      var begun := quiet.(client := ran.backend, auth := quiet.auth.Reset());
      if ran.error.Some? {
        CancelKeeps(begun.client);
      } else {
        ResumedAccounts(l, quiet, begun, SleepTold(l));
      }
    } else {
      assert Reports(l.auth, l.auth, EventsOf([]), []);
    }
  }

  lemma ConcludeTells(before: Locker, current: Locker)
    requires before.Settled() && Leaves(before, current) && current.client.conv.Tells()
    ensures var Handled(after, batch) := current.Conclude(before, Completed([]));
      batch.Some? ==> TellsState(after.auth, EventsOf(batch.value.events))
  {
    var (collected, reported) := current.Collect();
    CollectSettles(before, current);
    CollectShowsAll(current);
    if reported.Some? {
      var told := Announce(before.auth.authentication, collected.auth.authentication, [] + reported.value);
      assert told[|told| - 1] == Shown(current.client.conv.events[|current.client.conv.events| - 1]);
      assert TellsState(collected.auth, told);
      if collected.auth.Envelop(told).envelopes.Some? {
        StampContinues(collected.auth, told);
      }
    }
  }

  /**
   * A granted request to the conversation always tells where it led: its newest event is the prompt the
   * host now waits on, the success, the failure or the cancellation.
   */
  lemma GrantedRequestTellsState(l: Locker, request: Request)
    requires l.Settled() && l.lock.Locked? && Converses(request)
    ensures var Handled(after, batch) := l.Handle(request);
      batch.Some? && batch.value.response.Success? ==> TellsState(after.auth, EventsOf(batch.value.events))
  {
    ExecuteLeaves(l, request);
    if l.Execute(request).outcome.Completed? {
      assert l.Execute(request).outcome == Completed([]);
      ConcludeTells(l, l.Execute(request).locker);
    }
  }

  /**
   * An authorization is handed out exactly when a held lock has just been authenticated for,
   * consuming it is then never refused, and without one the lock stays unauthenticated.
   */
  lemma AuthorizationIsHonoured(before: Locker, after: Locker, envelopes: seq<Envelope>, unlock: bool)
    requires before.Inv() && Accounts(before, after, envelopes, unlock)
    ensures unlock <==> after.lock.Locked? && after.auth.authentication.Authenticated?
    ensures unlock ==> after.BeginUnlock().Some? && after.BeginUnlock().value.Inv()
    ensures !unlock ==> after.Inv()
  {
  }

  /** The fallback is asked for by a refusal during which the backend went out of service. */
  lemma FallbackIsLoss(before: Locker, current: Locker, outcome: Outcome)
    ensures var Handled(after, batch) := current.Conclude(before, outcome);
      batch.Some? && batch.value.trustedFallback ==>
        && !batch.value.unlockAuthorized
        && !OutOfService(before.client.conv.state) && OutOfService(after.client.conv.state)
  {
  }

  /** A settled controller whose backend is out of service shows a failure and keeps no worker. */
  lemma LossIsSettled(l: Locker)
    requires l.Settled() && OutOfService(l.client.conv.state)
    ensures !l.client.live && l.auth.authentication.Failed?
  {
  }

  /** A batch that asks for the trusted fallback leaves the lock held, no worker and no authorization. */
  lemma FallbackStaysLocked(l: Locker, request: Request)
    requires l.Inv()
    ensures var Handled(after, batch) := l.Handle(request);
      batch.Some? && batch.value.trustedFallback ==>
        && after.lock.Locked? && !after.client.live
        && after.auth.authentication.Failed? && !batch.value.unlockAuthorized
  {
    HandleAccounts(l, request);
    if !request.StateGet? {
      FallbackIsLoss(l, l.Execute(request).locker, l.Execute(request).outcome);
    }
    var Handled(after, batch) := l.Handle(request);
    if batch.Some? && batch.value.trustedFallback {
      LossIsSettled(after);
    }
  }

  /** A request refused before it did anything is answered, and nothing else happens. */
  lemma RefusedQuietly(l: Locker, code: ErrorCode)
    requires l.Settled()
    ensures l.Conclude(l, Refused(code)) == Handled(l, Some(Batch(Failure(code), [], false, false)))
  {
    assert l.Collect() == (l, Some([]));
    assert Announce(l.auth.authentication, l.auth.authentication, [] + []) == [];
    assert Stamp(l.auth.next, []).value == [];
  }

  /** Before the lock is confirmed and once it is unlocking, nothing but a snapshot is granted and nothing changes. */
  lemma OnlyHeldLockIsServed(l: Locker, request: Request)
    requires l.Settled() && !l.lock.Locked? && !request.StateGet?
    ensures l.Handle(request) == Handled(l, Some(Batch(Failure(InvalidState), [], false, false)))
  {
    RefusedQuietly(l, InvalidState);
  }

  /** An answer to anything but the public prompt is refused without reaching the backend, and nothing changes. */
  lemma StaleAnswerIsRefused(l: Locker, prompt: nat, response: Text)
    requires l.Settled() && l.lock.Locked? && l.auth.corePrompt != Some(prompt)
    ensures l.Handle(AuthRespond(prompt, response)) == Handled(l, Some(Batch(Failure(StalePrompt), [], false, false)))
  {
    RefusedQuietly(l, StalePrompt);
  }

  // ---------------------------------------------------------------------------
  // The mutable object

  class LockerController {
    const client: PamReauthBackend
    const auth: AuthPublicState
    var lock: LockState

    /** The objects this controller owns. */
    ghost function Repr(): set<object> {
      {this, client, client.conversation, client.workers, auth, auth.sequences}
    }

    ghost function Model(): Locker
      reads Repr()
    {
      Locker(client.Model(), auth.Model(), lock)
    }

    constructor (client: PamReauthBackend)
      ensures this.client == client && fresh(auth) && fresh(auth.sequences)
      ensures Model() == Locker(client.Model(), FreshPublic(client.Model().conv.state), Acquiring)
    {
      this.client := client;
      auth := new AuthPublicState(client.conversation.state);
      lock := Acquiring;
    }

    method TakeSnapshot() returns (snapshot: Option<Snapshot>)
      ensures snapshot == Model().TakeSnapshot()
    {
      if |auth.messages| > MAX_AUTH_MESSAGES {
        return None;
      }
      return Some(Snapshot(auth.authentication, auth.prompt, auth.messages, auth.sequences.Watermark(), LockerRole(lock)));
    }

    method MarkLockAcquired() returns (events: Option<seq<Envelope>>)
      modifies Repr()
      ensures Marked(Model(), events) == old(Model()).MarkAcquired()
    {
      if lock != Acquiring {
        return None;
      }
      lock := Locked;
      events := auth.EnvelopeEvents([LockAcquired]);
    }

    method MarkLockFailed() returns (events: Option<seq<Envelope>>)
      modifies Repr()
      ensures Marked(Model(), events) == old(Model()).MarkFailed()
    {
      if lock == LockBroken || lock == Released {
        return None;
      }
      lock := LockBroken;
      events := auth.EnvelopeEvents([LockFailed]);
    }

    method MarkLockReleased() returns (events: Option<seq<Envelope>>)
      modifies Repr()
      ensures Marked(Model(), events) == old(Model()).MarkReleased()
    {
      if lock != Unlocking {
        return None;
      }
      lock := Released;
      events := auth.EnvelopeEvents([LockReleased]);
    }

    method BeginUnlock() returns (ok: bool)
      modifies this
      ensures match old(Model()).BeginUnlock()
              case None => !ok && Model() == old(Model())
              case Some(after) => ok && Model() == after
    {
      if lock != Locked || auth.authentication != Authenticated {
        return false;
      }
      lock := Unlocking;
      return true;
    }

    method Handle(request: Request) returns (batch: Option<Batch>)
      modifies Repr()
      ensures Handled(Model(), batch) == old(Model()).Handle(request)
    {
      if request.StateGet? {
        var snapshot := TakeSnapshot();
        return if snapshot.None? then None else Some(Batch(State(snapshot.value), [], false, false));
      }
      var previous, previousBackend := auth.authentication, client.conversation.state;
      var outcome := Execute(request);
      var events := Collect();
      if events.None? {
        return None;
      }
      var details := outcome.Own() + events.value;
      var current, backend := auth.authentication, client.conversation.state;
      var envelopes := auth.EnvelopeEvents((if previous != current then [StateChanged(current)] else []) + details);
      if envelopes.None? {
        return None;
      }
      return Some(Batch(
        outcome.Answer(),
        envelopes.value,
        outcome.Completed? && previous != Authenticated && current == Authenticated,
        outcome.Refused? && !OutOfService(previousBackend) && OutOfService(backend)));
    }

    method Execute(request: Request) returns (outcome: Outcome)
      modifies Repr()
      ensures Executed(Model(), outcome) == old(Model()).Execute(request)
    {
      if lock != Locked {
        return Refused(InvalidState);
      }
      match request
      case StateGet =>
        return Completed([]);
      case AuthBegin(username) =>
        if username.Some? {
          return Refused(InvalidParams);
        }
        if client.conversation.state == Core.Idle || client.conversation.state == Core.Failed {
          auth.ResetConversation();
        }
        var error := client.BeginReauth();
        return AsOutcome(error);
      case AuthRespond(prompt, response) =>
        if auth.corePrompt != Some(prompt) {
          return Refused(StalePrompt);
        }
        var error := client.Respond(prompt, response);
        return AsOutcome(error);
      case AuthCancel =>
        var error := client.Cancel();
        return AsOutcome(error);
      case PowerRequest(enabled, accepted) =>
        outcome := RequestPower(enabled, accepted);
      case SessionSelect(_) =>
        return Refused(MethodDisabled);
    }

    method RequestPower(enabled: bool, accepted: bool) returns (outcome: Outcome)
      modifies Repr()
      ensures Executed(Model(), outcome) == old(Model()).RequestPower(enabled, accepted)
    {
      if !enabled {
        return Refused(MethodDisabled);
      }
      var cancelled := client.conversation.NeedsCancel();
      var ok := CancelForLifecycle();
      if !ok || !accepted {
        return Refused(Internal);
      }
      return Completed(if cancelled then [AuthCancelled] else []);
    }

    /** Drains core events into the public state, cancelling when one is not safe to show. */
    method Collect() returns (events: Option<seq<Event>>)
      modifies Repr()
      ensures (Model(), events) == old(Model()).Collect()
    {
      events := auth.DrainCoreEvents(client.conversation);
      if events.None? {
        CancelAfterInternalFailure();
      } else {
        auth.UpdateState(client.conversation.state);
      }
    }

    method CancelForLifecycle() returns (ok: bool)
      modifies Repr()
      ensures Cancelled(Model(), ok) == old(Model()).CancelForLifecycle()
    {
      if !client.conversation.NeedsCancel() {
        auth.UpdateState(client.conversation.state);
        return true;
      }
      var error := client.Cancel();
      if error.Some? {
        return false;
      }
      auth.DiscardCoreEvents(client.conversation);
      auth.UpdateState(client.conversation.state);
      auth.ClearPrompt();
      return true;
    }

    method CancelAfterInternalFailure()
      modifies Repr()
      ensures Model() == old(Model()).CancelAfterInternalFailure()
    {
      if client.conversation.NeedsCancel() {
        var _ := client.Cancel();
      }
      auth.ClearPrompt();
      auth.UpdateState(client.conversation.state);
    }

    method PrepareForSleep() returns (batch: Option<LifecycleBatch>)
      modifies Repr()
      ensures Lifecycle(Model(), batch) == old(Model()).PrepareForSleep()
    {
      if lock != Locked {
        return Some(LifecycleBatch([], false));
      }
      var previous, cancelled := auth.authentication, client.conversation.NeedsCancel();
      var ok := CancelForLifecycle();
      if !ok {
        return None;
      }
      batch := FinishLifecycle(previous, if cancelled then [AuthCancelled] else []);
    }

    method ResumeAfterSleep() returns (batch: Option<LifecycleBatch>)
      modifies Repr()
      ensures Lifecycle(Model(), batch) == old(Model()).ResumeAfterSleep()
    {
      if lock != Locked {
        return Some(LifecycleBatch([], false));
      }
      var previous, cancelled := auth.authentication, client.conversation.NeedsCancel();
      var ok := CancelForLifecycle();
      if !ok {
        return None;
      }
      auth.ResetConversation();
      var error := client.BeginReauth();
      if error.Some? {
        CancelAfterInternalFailure();
        return None;
      }
      var events := Collect();
      if events.None? {
        return None;
      }
      batch := FinishLifecycle(previous, (if cancelled then [AuthCancelled] else []) + events.value);
    }

    method FinishLifecycle(previous: AuthState, details: seq<Event>) returns (batch: Option<LifecycleBatch>)
      modifies Repr()
      ensures Lifecycle(Model(), batch) == old(Model()).FinishLifecycle(previous, details)
    {
      var current := auth.authentication;
      var envelopes := auth.EnvelopeEvents((if previous != current then [StateChanged(current)] else []) + details);
      return if envelopes.None? then None
             else Some(LifecycleBatch(envelopes.value, previous != Authenticated && current == Authenticated));
    }
  }
}

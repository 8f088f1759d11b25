/** The theme's replica against the locker: what a view shows is what the controller holds. */
module LockerReplica {
  import opened Prelude
  import opened Frontend
  import opened LockerController
  import opened LockerWorker
  import opened ThemeStore
  import opened Views
  import Core
  import Ipc
  import PamBackend
  import Sdk

  /** The replica's lock is the host's; that unlocking has begun is never announced. */
  predicate ShowsLock(shown: Role, lock: LockState) {
    shown.LockerRole? && (shown.lock == lock || (shown.lock.Locked? && lock.Unlocking?))
  }

  ghost predicate Follows(s: Snapshot, locker: Locker) {
    Agrees(s, locker.auth) && ShowsLock(s.role, locker.lock)
  }

  /** A snapshot of a settled controller agrees with it. */
  lemma SnapshotFollows(l: Locker)
    requires l.Settled()
    ensures l.TakeSnapshot().Some? && Follows(l.TakeSnapshot().value, l)
    ensures l.TakeSnapshot().value.sequence == l.auth.next - 1
  {
  }

  /** Cancelling for a page change announces nothing: the replicas of the other views agree exactly if it had nothing to cancel. */
  lemma PageCancelIsSilent(l: Locker, s: Snapshot)
    requires l.Settled() && Follows(s, l)
    ensures Follows(s, l.CancelForLifecycle().locker) <==> !l.client.conv.NeedsCancel()
  {
    CancelSettles(l);
  }

  lemma AccountedFollows(before: Locker, after: Locker, events: seq<Envelope>, unlock: bool, s: Snapshot, failure: Text)
    requires Accounts(before, after, events, unlock) && Follows(s, before)
    ensures Follows(Fold(s, events, failure), after)
  {
    PublishedKeepsAgreement(s, before.auth, after.auth, events, failure);
  }

  /** What a command published, when the worker runs on after it. */
  function News(before: Worker, after: Worker): seq<Envelope> {
    if |before.published| <= |after.published| then after.published[|before.published|..] else []
  }

  /** The replica, folded over what was published since, follows the host again. */
  ghost predicate FollowsOn(before: Worker, after: Worker, s: Snapshot, failure: Text) {
    match after
    case Worker(locker, _, _, _, _, _) => Follows(Fold(s, News(before, after), failure), locker)
  }

  /** A command after which the worker runs on, and which is not a page cancellation with something to cancel. */
  predicate Tells(w: Worker, input: Input) {
    && !w.stopped && !w.Step(input).stopped
    && (input.command.CancelForPage? ==> !w.locker.client.conv.NeedsCancel())
  }

  lemma RequestFollows(w: Worker, input: Input, s: Snapshot, failure: Text)
    requires input.command.Submit? && w.Inv() && !w.stopped && Follows(s, w.locker)
    requires !w.HandleRequest(input).stopped
    ensures FollowsOn(w, w.HandleRequest(input), s, failure)
  {
    var after := w.HandleRequest(input);
    var Submit(view, epoch, request) := input.command;
    if HasView(w.channels, view) {
      HandleAccounts(w.locker, request);
      var Handled(handled, Some(batch)) := w.locker.Handle(request);
      BatchFollows(w, handled, batch, view, epoch, input, s, failure);
    } else {
      assert News(w, after) == [];
    }
  }

  lemma BatchFollows(w: Worker, handled: Locker, batch: Batch, view: nat, epoch: nat, input: Input,
                     s: Snapshot, failure: Text)
    requires Follows(s, w.locker) && !w.stopped
    requires Accounts(w.locker, handled, batch.events, batch.unlockAuthorized)
    requires !w.(locker := handled).HandleBatch(view, epoch, batch, input).stopped
    ensures FollowsOn(w, w.(locker := handled).HandleBatch(view, epoch, batch, input), s, failure)
  {
    var after := w.(locker := handled).HandleBatch(view, epoch, batch, input);
    AccountedFollows(w.locker, handled, batch.events, batch.unlockAuthorized, s, failure);
    assert after.published == w.published + batch.events;
    assert News(w, after) == batch.events;
  }

  lemma LifecycleFollows(w: Worker, handled: Locker, batch: LifecycleBatch, input: Input, s: Snapshot, failure: Text)
    requires Follows(s, w.locker) && !w.stopped
    requires Accounts(w.locker, handled, batch.events, batch.unlockAuthorized)
    requires !w.(locker := handled).HandleLifecycle(Some(batch), input).stopped
    ensures FollowsOn(w, w.(locker := handled).HandleLifecycle(Some(batch), input), s, failure)
  {
    var after := w.(locker := handled).HandleLifecycle(Some(batch), input);
    AccountedFollows(w.locker, handled, batch.events, batch.unlockAuthorized, s, failure);
    assert after.published == w.published + batch.events;
    assert News(w, after) == batch.events;
  }

  lemma PrepareFollows(w: Worker, input: Input, s: Snapshot, failure: Text)
    requires input.command.SleepComing? && w.Inv() && !w.stopped && Follows(s, w.locker) && !w.HandlePrepare(input).stopped
    ensures FollowsOn(w, w.HandlePrepare(input), s, failure)
  {
    PrepareAccounts(w.locker);
    var Lifecycle(handled, reported) := w.locker.PrepareForSleep();
    LifecycleFollows(w, handled, reported.value, input, s, failure);
  }

  lemma ResumeFollows(w: Worker, input: Input, s: Snapshot, failure: Text)
    requires input.command.SleepOver? && w.Inv() && !w.stopped && Follows(s, w.locker) && !w.HandleResume(input).stopped
    ensures FollowsOn(w, w.HandleResume(input), s, failure)
  {
    ResumeAccounts(w.locker);
    var Lifecycle(handled, reported) := w.locker.ResumeAfterSleep();
    LifecycleFollows(w, handled, reported.value, input, s, failure);
  }

  lemma MarkFollows(w: Worker, allowed: bool, next: LockState, event: Event, notice: NativeEvent, input: Input,
                    s: Snapshot, failure: Text)
    requires Follows(s, w.locker) && !w.stopped && w.locker.auth.Bounded()
    requires (event.LockAcquired? && next.Locked?) || (event.LockReleased? && next.Released?)
    requires var Marked(locker, events) := w.locker.Mark(allowed, next, event);
      !w.(locker := locker).HandleMark(events, notice, input).stopped
    ensures var Marked(locker, events) := w.locker.Mark(allowed, next, event);
      var after := w.(locker := locker).HandleMark(events, notice, input);
      Follows(Fold(s, News(w, after), failure), after.locker)
  {
    var Marked(locker, events) := w.locker.Mark(allowed, next, event);
    var after := w.(locker := locker).HandleMark(events, notice, input);
    var told := events.value;
    assert after.published == w.published + told && News(w, after) == told;
    assert |told| == 1 && told[0].event == event && told[..0] == [];
    assert Fold(s, told, failure) == Reduce(s, told[0], failure);
  }

  lemma LockedFollows(w: Worker, input: Input, s: Snapshot, failure: Text)
    requires input.command.CompositorLocked? && w.Inv() && !w.stopped && Follows(s, w.locker) && !w.HandleLocked(input).stopped
    ensures FollowsOn(w, w.HandleLocked(input), s, failure)
  {
    MarkFollows(w.(lockedAt := |w.locker.client.world.log|), w.locker.lock.Acquiring?, Locked, LockAcquired,
                NativeLocked, input, s, failure);
  }

  lemma ReleasedFollows(w: Worker, input: Input, s: Snapshot, failure: Text)
    requires input.command.CompositorReleased? && w.Inv() && !w.stopped && Follows(s, w.locker) && !w.HandleReleased(input).stopped
    ensures FollowsOn(w, w.HandleReleased(input), s, failure)
  {
    MarkFollows(w, w.locker.lock.Unlocking?, Released, LockReleased, NativeReleased, input, s, failure);
  }

  /** The loss of the lock, the last thing a worker announces, shows on every replica that follows the host. */
  lemma LossIsShown(l: Locker, s: Snapshot, failure: Text)
    requires l.Settled() && Follows(s, l) && l.MarkFailed().events.Some?
    ensures var Marked(after, Some(events)) := l.MarkFailed();
      && after.lock.LockBroken? && Follows(Fold(s, events, failure), after)
  {
    var told := l.MarkFailed().events.value;
    assert |told| == 1 && told[0].event == LockFailed && told[..0] == [];
    assert Fold(s, told, failure) == Reduce(s, told[0], failure);
  }

  /** Registering, letting go and a page cancellation without effect publish nothing. */
  lemma QuietFollows(w: Worker, input: Input, s: Snapshot, failure: Text)
    requires w.Inv() && Tells(w, input) && Follows(s, w.locker)
    requires input.command.Register? || input.command.Detach? || input.command.CancelForPage?
    ensures FollowsOn(w, w.Step(input), s, failure)
  {
    if input.command.CancelForPage? {
      CancelSettles(w.locker);
    }
    assert News(w, w.Step(input)) == [];
  }

  /** Every command that tells its views what it does keeps a replica that follows the host following it. */
  lemma StepFollows(w: Worker, input: Input, s: Snapshot, failure: Text)
    requires w.Inv() && Tells(w, input) && Follows(s, w.locker)
    ensures FollowsOn(w, w.Step(input), s, failure)
  {
    match input.command
    case Submit(_, _, _) => RequestFollows(w, input, s, failure);
    case SleepComing => PrepareFollows(w, input, s, failure);
    case SleepOver => ResumeFollows(w, input, s, failure);
    case CompositorLocked => LockedFollows(w, input, s, failure);
    case CompositorReleased => ReleasedFollows(w, input, s, failure);
    case CompositorFailed =>
    case Shutdown =>
    case _ => QuietFollows(w, input, s, failure);
  }

  /** A run in which every command tells its views what it does. */
  ghost predicate AllTell(w: Worker, inputs: seq<Input>)
    decreases |inputs|
  {
    inputs == [] ||
    (AllTell(w, inputs[..|inputs| - 1]) && Tells(Run(w, inputs[..|inputs| - 1]), inputs[|inputs| - 1]))
  }

  lemma SuffixesJoin(a: seq<Envelope>, b: seq<Envelope>, c: seq<Envelope>)
    requires a <= b <= c
    ensures c[|a|..] == b[|a|..] + c[|b|..]
  {
    assert c == b + c[|b|..];
  }

  lemma NewsJoins(a: Worker, b: Worker, c: Worker, s: Snapshot, failure: Text)
    requires a.published <= b.published <= c.published
    requires FollowsOn(b, c, Fold(s, News(a, b), failure), failure)
    ensures FollowsOn(a, c, s, failure)
  {
    SuffixesJoin(a.published, b.published, c.published);
    FoldSplits(s, News(a, b), News(b, c), failure);
  }

  /** Over any such run, folding everything published keeps a replica at the host's public state. */
  lemma {:induction false} RunFollows(w: Worker, inputs: seq<Input>, s: Snapshot, failure: Text)
    requires w.Inv() && AllTell(w, inputs) && Follows(s, w.locker)
    ensures w.published <= Run(w, inputs).published
    ensures FollowsOn(w, Run(w, inputs), s, failure)
    decreases |inputs|
  {
    if inputs == [] {
      assert News(w, w) == [];
    } else {
      var init, last := inputs[..|inputs| - 1], inputs[|inputs| - 1];
      var before, after := Run(w, init), Run(w, inputs);
      RunFollows(w, init, s, failure);
      RunKeeps(w, init);
      StepKeeps(before, last);
      StepFollows(before, last, Fold(s, News(w, before), failure), failure);
      NewsJoins(w, before, after, s, failure);
    }
  }

  // ---------------------------------------------------------------------------
  // When the shown lock is the host's

  /** No event tells of unlocking, so a replica that does not show it never comes to. */
  lemma {:induction false} FoldNeverUnlocks(s: Snapshot, envelopes: seq<Envelope>, failure: Text)
    requires s.role.LockerRole? && !s.role.lock.Unlocking?
    ensures var role := Fold(s, envelopes, failure).role; role.LockerRole? && !role.lock.Unlocking?
    decreases |envelopes|
  {
    if envelopes != [] {
      FoldNeverUnlocks(s, envelopes[..|envelopes| - 1], failure);
    }
  }

  /** A lock that has been unlocking is so until it is released or lost, and meanwhile nothing is published. */
  ghost predicate StaysQuiet(before: Worker, after: Worker) {
    && (after.locker.lock.Unlocking? || after.locker.lock.Released? || after.locker.lock.LockBroken?)
    && (after.locker.lock.Unlocking? ==> after.published == before.published)
  }

  lemma UnlockingLifecycleIsEmpty(l: Locker)
    requires l.lock.Unlocking?
    ensures l.PrepareForSleep() == l.ResumeAfterSleep() == Lifecycle(l, Some(LifecycleBatch([], false)))
  {
  }

  lemma EmptyBatchIsQuiet(w: Worker, view: nat, epoch: nat, batch: Batch, input: Input)
    requires w.locker.lock.Unlocking? && batch.events == [] && !batch.unlockAuthorized
    ensures StaysQuiet(w, w.HandleBatch(view, epoch, batch, input))
  {
  }

  lemma UnlockingRequestIsQuiet(w: Worker, input: Input)
    requires input.command.Submit? && w.Inv() && !w.stopped && w.locker.lock.Unlocking?
    ensures StaysQuiet(w, w.HandleRequest(input))
  {
    var Submit(view, epoch, request) := input.command;
    if request.StateGet? {
      StateGetAnswers(w.locker);
    } else {
      OnlyHeldLockIsServed(w.locker, request);
    }
    if HasView(w.channels, view) {
      EmptyBatchIsQuiet(w, view, epoch, w.locker.Handle(request).batch.value, input);
    }
  }

  lemma UnlockingStepIsQuiet(w: Worker, input: Input)
    requires w.Inv() && Tells(w, input) && w.locker.lock.Unlocking?
    ensures StaysQuiet(w, w.Step(input))
  {
    match input.command
    case Submit(_, _, _) => UnlockingRequestIsQuiet(w, input);
    case SleepComing => UnlockingLifecycleIsEmpty(w.locker);
    case SleepOver => UnlockingLifecycleIsEmpty(w.locker);
    case CancelForPage => CancelSettles(w.locker);
    case _ =>
  }

  lemma {:induction false} UnlockingRunIsQuiet(w: Worker, inputs: seq<Input>)
    requires w.Inv() && AllTell(w, inputs) && w.locker.lock.Unlocking?
    ensures StaysQuiet(w, Run(w, inputs))
    decreases |inputs|
  {
    if inputs != [] {
      var init, last := inputs[..|inputs| - 1], inputs[|inputs| - 1];
      UnlockingRunIsQuiet(w, init);
      RunKeeps(w, init);
      if Run(w, init).locker.lock.Unlocking? {
        UnlockingStepIsQuiet(Run(w, init), last);
      } else {
        StepKeeps(Run(w, init), last);
      }
    }
  }

  /** The replica's lock after a run, if it followed the host before. */
  function ShownLock(w: Worker, inputs: seq<Input>, s: Snapshot, failure: Text): Role {
    Fold(s, News(w, Run(w, inputs)), failure).role
  }

  /**
   * Over any telling run a replica that followed the host shows exactly the host's lock if and only if
   * the host is not unlocking, or the replica had been told so by a snapshot; otherwise it shows a
   * lock that is still held.
   */
  lemma LockIsShownExactly(w: Worker, inputs: seq<Input>, s: Snapshot, failure: Text)
    requires w.Inv() && AllTell(w, inputs) && Follows(s, w.locker)
    ensures var shown, lock := ShownLock(w, inputs, s, failure), Run(w, inputs).locker.lock;
      && (shown == LockerRole(lock) <==> !lock.Unlocking? || s.role.lock.Unlocking?)
      && (shown != LockerRole(lock) ==> shown == LockerRole(Locked))
  {
    RunFollows(w, inputs, s, failure);
    if s.role.lock.Unlocking? {
      UnlockingRunIsQuiet(w, inputs);
      if Run(w, inputs).locker.lock.Unlocking? {
        assert News(w, Run(w, inputs)) == [];
      }
    } else {
      FoldNeverUnlocks(s, News(w, Run(w, inputs)), failure);
    }
  }

  /** What a still attached view has been sent since an earlier moment is exactly what was published since. */
  lemma {:induction false} ChannelCarriesNews(w: Worker, inputs: seq<Input>, i: nat)
    requires w.Inv() && i < |w.channels| && w.channels[i].attached
    requires |w.channels| <= |Run(w, inputs).channels| && Run(w, inputs).channels[i].attached
    requires w.published <= Run(w, inputs).published && Extended(w.channels[i], Run(w, inputs).channels[i])
    ensures Delivered(Run(w, inputs).channels[i].log) == Delivered(w.channels[i].log) + News(w, Run(w, inputs))
  {
    RunKeeps(w, inputs);
    assert Served(w.channels[i], w.published) && Served(Run(w, inputs).channels[i], Run(w, inputs).published);
    SuffixesJoin(w.published[..w.channels[i].from], w.published, Run(w, inputs).published);
  }

  lemma {:induction false} RunExtends(w: Worker, inputs: seq<Input>)
    requires w.Inv()
    ensures Extends(w.channels, Run(w, inputs).channels) && w.published <= Run(w, inputs).published
    decreases |inputs|
  {
    if inputs != [] {
      var init := inputs[..|inputs| - 1];
      RunExtends(w, init);
      RunKeeps(w, init);
      StepKeeps(Run(w, init), inputs[|inputs| - 1]);
      ExtendsOn(w.channels, Run(w, init).channels, Run(w, inputs).channels);
    }
  }

  /**
   * From host to screen: a subscribed client that has just taken a snapshot and then receives, in order,
   * what its view's channel carries, hands every event of it to the theme, and the theme's replica
   * again shows the host's authentication state and its prompt while it waits, and exactly its lock
   * unless the host is unlocking and the snapshot did not say so yet: then it shows a held lock.
   */
  lemma ViewFollowsHost(w: Worker, inputs: seq<Input>, i: nat, c: Sdk.Client, s: Snapshot, failure: Text)
    requires w.Inv() && AllTell(w, inputs) && !Run(w, inputs).stopped
    requires i < |w.channels| && w.channels[i].attached
    requires i < |Run(w, inputs).channels| && Run(w, inputs).channels[i].attached
    requires Follows(s, w.locker) && s.sequence == |w.published|
    requires c.subscribed && c.mode.LockerMode? && c.last == s.sequence
    ensures var after := Run(w, inputs);
      var news := News(w, after);
      && Delivered(after.channels[i].log) == Delivered(w.channels[i].log) + news
      && Sdk.Run(c, Sdk.Arrivals(news)).trace == c.trace + Sdk.Deliveries(news)
      && FollowsOn(w, after, s, failure)
      && (ShownLock(w, inputs, s, failure) ==
          if after.locker.lock.Unlocking? && !s.role.lock.Unlocking? then LockerRole(Locked)
          else LockerRole(after.locker.lock))
  {
    RunExtends(w, inputs);
    LockIsShownExactly(w, inputs, s, failure);
    ChannelCarriesNews(w, inputs, i);
    RunFollows(w, inputs, s, failure);
    RunKeeps(w, inputs);
    var news := News(w, Run(w, inputs));
    NewsPass(w, Run(w, inputs), c);
  }

  lemma NewsPass(w: Worker, after: Worker, c: Sdk.Client)
    requires after.Inv() && !after.stopped && w.published <= after.published
    requires c.subscribed && c.mode.LockerMode? && c.last == |w.published|
    ensures Sdk.Run(c, Sdk.Arrivals(News(w, after))).trace == c.trace + Sdk.Deliveries(News(w, after))
  {
    var news := News(w, after);
    forall k | 0 <= k < |news|
      ensures news[k].sequence == c.last + k + 1 <= MAX_SAFE_INTEGER && BelongsTo(LockerMode, news[k].event)
    {
      assert news[k] == after.published[|w.published| + k];
    }
    Sdk.OrderedEventsPass(c, news);
  }

  // ---------------------------------------------------------------------------
  // Runs in which they differ

  /** A locker whose lock has just been confirmed. */
  function Held(script: seq<PamBackend.Reply>): Locker {
    Locker(PamBackend.Connected([97], script), FreshPublic(Core.Idle), Acquiring).MarkAcquired().locker
  }

  /** A worker that asks for a secret, and one that accepts the user at once. */
  const ASKING: seq<PamBackend.Reply> := [PamBackend.Done, PamBackend.Arrived(Ipc.PromptFrame(1, Ipc.SecretPrompt, []))]
  const ACCEPTING: seq<PamBackend.Reply> :=
    [PamBackend.Done, PamBackend.Arrived(Ipc.AuthenticatedFrame), PamBackend.Done]

  lemma HeldIsSettled(script: seq<PamBackend.Reply>)
    ensures Held(script).Inv() && Held(script).lock.Locked? && Held(script).auth.next == 2
    ensures Held(script).client == PamBackend.Connected([97], script)
  {
    PamBackend.ConnectedIsSettled([97], script);
  }

  lemma AskingDrives()
    ensures var ran := PamBackend.Connected([97], ASKING).BeginReauth();
      && ran.error.None? && ran.backend.conv.state.WaitingForSecret?
      && ran.backend.conv.events == [Core.Prompt(1, Core.Secret, [])] && ran.backend.conv.active == Some(1)
  {
    var b := PamBackend.Connected([97], ASKING);
    var begun := b.Start().backend;
    assert ASKING[1..] == [PamBackend.Arrived(Ipc.PromptFrame(1, Ipc.SecretPrompt, []))];
    assert begun.world.Reply().Arrived?;
    PamBackend.StepHandles(begun);
    assert begun.Step().Over?;
    assert begun.Drive() == begun.Step().ran;
  }

  lemma AskingWaits()
    ensures var l := Held(ASKING).Handle(AuthBegin(None)).locker;
      l.Settled() && l.client.conv.NeedsCancel() && l.auth.authentication.Waiting()
  {
    HeldIsSettled(ASKING);
    AskingDrives();
    var l := Held(ASKING);
    HandleAccounts(l, AuthBegin(None));
    assert l.Execute(AuthBegin(None)).outcome == Completed([]);
  }

  /** A page cancellation can lose the prompt that another view still shows. */
  lemma PageCancelLosesPrompt()
    ensures var l := Held(ASKING).Handle(AuthBegin(None)).locker;
      && l.Settled() && l.TakeSnapshot().Some?
      && var s := l.TakeSnapshot().value;
      Follows(s, l) && !Follows(s, l.CancelForLifecycle().locker)
  {
    AskingWaits();
    var l := Held(ASKING).Handle(AuthBegin(None)).locker;
    SnapshotFollows(l);
    PageCancelIsSilent(l, l.TakeSnapshot().value);
  }

  /** So can the theme, when it clears its display before it restarts an authentication. */
  lemma ClearingLosesPrompt()
    ensures var l := Held(ASKING).Handle(AuthBegin(None)).locker;
      && l.Settled() && l.TakeSnapshot().Some?
      && var s := l.TakeSnapshot().value;
      Agrees(s, l.auth) && !Agrees(ClearDisplay(s), l.auth)
  {
    AskingWaits();
    var l := Held(ASKING).Handle(AuthBegin(None)).locker;
    SnapshotFollows(l);
    ClearDisplayLosesPrompt(l.TakeSnapshot().value, l.auth);
  }

  lemma AcceptingDrives()
    ensures var ran := PamBackend.Connected([97], ACCEPTING).BeginReauth();
      && ran.error.None? && ran.backend.conv.state.Authenticated?
      && ran.backend.conv.events == [Core.Succeeded([97])]
  {
    var begun := PamBackend.Connected([97], ACCEPTING).Start().backend;
    assert ACCEPTING[1..] == [PamBackend.Arrived(Ipc.AuthenticatedFrame), PamBackend.Done];
    assert begun.world.Reply().Arrived?;
    PamBackend.StepHandles(begun);
    assert begun.Step().Over?;
    assert begun.Drive() == begun.Step().ran;
  }

  lemma AcceptingUnlocks()
    ensures var Handled(after, batch) := Held(ACCEPTING).Handle(AuthBegin(None));
      && after.Settled() && after.lock.Locked? && after.auth.authentication.Authenticated?
      && batch.Some? && batch.value.unlockAuthorized && !batch.value.trustedFallback
  {
    HeldIsSettled(ACCEPTING);
    AcceptingDrives();
    HandleAccounts(Held(ACCEPTING), AuthBegin(None));
    assert Held(ACCEPTING).Execute(AuthBegin(None)).outcome == Completed([]);
  }

  /** A command for which every channel has room and everybody listens. */
  function Heard(command: Command): Input {
    Input(command, {0}, {0}, true, true)
  }

  /** A worker whose one view has registered, and whose lock has been confirmed. */
  function Watched(script: seq<PamBackend.Reply>): Worker {
    Launched([97], script).Step(Heard(Register(0))).Step(Heard(CompositorLocked))
  }

  lemma RegisteredIsLaunched(script: seq<PamBackend.Reply>)
    ensures var registered := Launched([97], script).Step(Heard(Register(0)));
      && registered.Inv()
      && registered == Launched([97], script).(channels := [Channel(0, 0, [Ready], true)])
  {
    var launched := Launched([97], script);
    LaunchKeeps([97], script);
    StepKeeps(launched, Heard(Register(0)));
    assert launched.Step(Heard(Register(0))) == launched.HandleRegister(Heard(Register(0)));
    assert RemoveView([], 0) == [];
  }

  /** Confirming the lock takes no attached view with room away. */
  lemma ConfirmedIsHeld(w: Worker)
    requires w.Inv() && !w.stopped && w.locker.MarkAcquired().events.Some?
    requires w.channels == [Channel(0, 0, [Ready], true)]
    ensures var after := w.Step(Heard(CompositorLocked));
      && after.Inv() && !after.stopped && after.locker == w.locker.MarkAcquired().locker && HasView(after.channels, 0)
  {
    StepKeeps(w, Heard(CompositorLocked));
    assert IsView(w.HandleLocked(Heard(CompositorLocked)).channels[0], 0);
  }

  lemma WatchedIsHeld(script: seq<PamBackend.Reply>)
    ensures var w := Watched(script);
      && w.Inv() && !w.stopped && w.locker == Held(script) && HasView(w.channels, 0)
  {
    RegisteredIsLaunched(script);
    ConfirmedIsHeld(Launched([97], script).(channels := [Channel(0, 0, [Ready], true)]));
  }

  /** A request that is granted the unlocking starts it. */
  lemma AuthorizedUnlocks(w: Worker, request: Request)
    requires !w.stopped && HasView(w.channels, 0)
    requires var Handled(after, batch) := w.locker.Handle(request);
      && after.lock.Locked? && after.auth.authentication.Authenticated?
      && batch.Some? && batch.value.unlockAuthorized
    ensures var after := w.Step(Heard(Submit(0, 0, request)));
      !after.stopped && after.locker.lock.Unlocking?
  {
  }

  lemma OneCommandRuns(w: Worker, input: Input)
    ensures Run(w, [input]) == w.Step(input)
    ensures Tells(w, input) ==> AllTell(w, [input])
  {
    var inputs := [input];
    assert inputs[..0] == [];
    assert AllTell(w, inputs[..0]);
  }

  /** A view that took its snapshot of a held lock goes on showing it as held while the host unlocks. */
  lemma UnlockingIsNotShown(failure: Text)
    ensures var w, begin := Watched(ACCEPTING), [Heard(Submit(0, 0, AuthBegin(None)))];
      && w.Inv() && AllTell(w, begin) && w.locker.TakeSnapshot().Some?
      && var s := w.locker.TakeSnapshot().value;
      && Follows(s, w.locker)
      && Run(w, begin).locker.lock.Unlocking?
      && ShownLock(w, begin, s, failure) == LockerRole(Locked)
  {
    var w, input := Watched(ACCEPTING), Heard(Submit(0, 0, AuthBegin(None)));
    WatchedIsHeld(ACCEPTING);
    AcceptingUnlocks();
    SnapshotFollows(w.locker);
    AuthorizedUnlocks(w, AuthBegin(None));
    OneCommandRuns(w, input);
    LockIsShownExactly(w, [input], w.locker.TakeSnapshot().value, failure);
  }
}

/** One thread owns the locker's controller and serves commands for all views (fomalhaut-lock, controller_worker.rs). */
module LockerWorker {
  import opened Prelude
  import opened Frontend
  import opened LockerController
  import opened Views
  import PamBackend

  datatype NativeEvent = BackendReady | NativeLocked | NativeLockFailed | NativeUnlock | NativeReleased | NativeFatal

  /**
   * One registered view's bounded channel: everything ever put on it, whether the worker still
   * holds it, and how many events had been published when it was registered.
   */
  datatype Channel = Channel(view: nat, from: nat, log: seq<Output>, attached: bool) {
    function Send(output: Output, room: bool): Channel {
      if room then this.(log := log + [output]) else Drop()
    }

    function Drop(): Channel {
      this.(attached := false)
    }

    function Without(view: nat): Channel {
      if attached && this.view == view then Drop() else this
    }

    function Answer(view: nat, output: Output, room: bool): Channel {
      if attached && this.view == view then Send(output, room) else this
    }

    function Hear(excluded: Option<nat>, events: seq<Envelope>, room: bool): Channel {
      if !attached || excluded == Some(view) || events == [] then this else Send(Told(events), room)
    }

    function End(room: bool): Channel {
      if attached then Send(FatalView, room).Drop() else this
    }
  }

  datatype Command =
    | Register(view: nat)
    | Detach(view: nat)
    | Submit(view: nat, epoch: nat, request: Request)
    | CancelForPage
    | SleepComing
    | SleepOver
    | CompositorLocked
    | CompositorFailed
    | CompositorReleased
    | Shutdown

  /**
   * A command with what its surroundings do meanwhile: which channels have room for it and for a
   * fatal notice after it, whether a registering view still listens, and whether the host does.
   */
  datatype Input = Input(command: Command, room: set<nat>, fatalRoom: set<nat>, listening: bool, host: bool)

  // ---------------------------------------------------------------------------
  // The map of views, as the channels that are still attached

  predicate IsView(channel: Channel, view: nat) {
    channel.attached && channel.view == view
  }

  predicate HasView(channels: seq<Channel>, view: nat) {
    exists i :: 0 <= i < |channels| && IsView(channels[i], view)
  }

  function RemoveView(channels: seq<Channel>, view: nat): seq<Channel> {
    seq(|channels|, i requires 0 <= i < |channels| =>
      channels[i].Without(view))
  }

  function SendToView(channels: seq<Channel>, view: nat, output: Output, room: set<nat>): seq<Channel> {
    seq(|channels|, i requires 0 <= i < |channels| =>
      channels[i].Answer(view, output, i in room))
  }

  function Broadcast(channels: seq<Channel>, excluded: Option<nat>, events: seq<Envelope>, room: set<nat>)
    : seq<Channel>
  {
    seq(|channels|, i requires 0 <= i < |channels| =>
      channels[i].Hear(excluded, events, i in room))
  }

  /** Every view is told that it is over, if it has room, and let go. */
  function Drain(channels: seq<Channel>, room: set<nat>): seq<Channel> {
    seq(|channels|, i requires 0 <= i < |channels| =>
      channels[i].End(i in room))
  }

  function DropAll(channels: seq<Channel>): seq<Channel> {
    seq(|channels|, i requires 0 <= i < |channels| => channels[i].Drop())
  }

  // ---------------------------------------------------------------------------
  // The worker

  /**
   * The worker's state, with everything it ever published and the length of the PAM log
   * at the moment the compositor confirmed the lock.
   */
  datatype Worker = Worker(
    locker: Locker, channels: seq<Channel>, native: seq<NativeEvent>, published: seq<Envelope>,
    lockedAt: nat, stopped: bool)
  {
    /** The thread returns; its senders are dropped. */
    function Stop(): Worker {
      this.(channels := DropAll(channels), stopped := true)
    }

    function Fail(input: Input): Worker {
      this.(channels := Drain(channels, input.fatalRoom),
            native := if input.host then native + [NativeFatal] else native).Stop()
    }

    /** Notifies the host, or stops if nobody listens. */
    function Notify(event: NativeEvent, input: Input): Worker {
      if input.host then this.(native := native + [event]) else Stop()
    }

    function PublishAll(events: seq<Envelope>, input: Input): Worker {
      this.(published := published + events, channels := Broadcast(channels, None, events, input.room))
    }

    function HandleRegister(input: Input): Worker
      requires input.command.Register?
    {
      var view := input.command.view;
      if !input.listening then this
      else this.(channels := RemoveView(channels, view) + [Channel(view, |published|, [Ready], true)])
    }

    function HandleDetach(input: Input): Worker
      requires input.command.Detach?
    {
      this.(channels := RemoveView(channels, input.command.view))
    }

    /** The worker once an authorization, if there is one, has been consumed. */
    function Consume(unlock: bool): Option<Worker> {
      if !unlock then Some(this)
      else
        match locker.BeginUnlock()
        case None => None
        case Some(next) => Some(this.(locker := next))
    }

    /** Lets the host unlock, if it was authorized; a host that is gone is fatal. */
    function Authorize(unlock: bool, input: Input): Worker {
      if !unlock then this
      else if input.host then this.(native := native + [NativeUnlock])
      else Fail(input)
    }

    /** Hands a batch to every view, its response to the view that asked. */
    function TellAll(view: nat, epoch: nat, batch: Batch, input: Input): Worker {
      var answered := SendToView(channels, view, Answered(epoch, batch.response, batch.events, false), input.room);
      var told := Broadcast(answered, Some(view), batch.events, input.room);
      this.(published := published + batch.events,
            channels := if batch.trustedFallback then Drain(told, input.fatalRoom) else told)
    }

    function HandleBatch(view: nat, epoch: nat, batch: Batch, input: Input): Worker {
      match Consume(batch.unlockAuthorized)
      case None => Fail(input)
      case Some(next) => next.TellAll(view, epoch, batch, input).Authorize(batch.unlockAuthorized, input)
    }

    function HandleRequest(input: Input): Worker
      requires input.command.Submit?
    {
      var Submit(view, epoch, request) := input.command;
      if !HasView(channels, view) then this
      else
        var Handled(handled, reported) := locker.Handle(request);
        match reported
        case None => this.(locker := handled).Fail(input)
        case Some(batch) => this.(locker := handled).HandleBatch(view, epoch, batch, input)
    }

    function HandleLifecycle(reported: Option<LifecycleBatch>, input: Input): Worker {
      match reported
      case None => Fail(input)
      case Some(LifecycleBatch(events, unlock)) =>
        match Consume(unlock)
        case None => Fail(input)
        case Some(next) => next.PublishAll(events, input).Authorize(unlock, input)
    }

    function HandlePrepare(input: Input): Worker
      requires input.command.SleepComing?
    {
      var Lifecycle(handled, reported) := locker.PrepareForSleep();
      this.(locker := handled).HandleLifecycle(reported, input)
    }

    function HandleResume(input: Input): Worker
      requires input.command.SleepOver?
    {
      var Lifecycle(handled, reported) := locker.ResumeAfterSleep();
      this.(locker := handled).HandleLifecycle(reported, input)
    }

    /** Tells every view and then the host of a lock event; one recorded out of order is fatal. */
    function HandleMark(reported: Option<seq<Envelope>>, notice: NativeEvent, input: Input): Worker {
      match reported
      case None => Fail(input)
      case Some(events) => PublishAll(events, input).Notify(notice, input)
    }

    function HandleLocked(input: Input): Worker
      requires input.command.CompositorLocked?
    {
      var Marked(next, events) := locker.MarkAcquired();
      this.(locker := next, lockedAt := |locker.client.world.log|).HandleMark(events, NativeLocked, input)
    }

    function HandleLost(input: Input): Worker
      requires input.command.CompositorFailed?
    {
      var Marked(next, events) := locker.MarkFailed();
      this.(locker := next).HandleMark(events, NativeLockFailed, input).Stop()
    }

    function HandleReleased(input: Input): Worker
      requires input.command.CompositorReleased?
    {
      var Marked(next, events) := locker.MarkReleased();
      this.(locker := next).HandleMark(events, NativeReleased, input)
    }

    function HandleCancel(input: Input): Worker
      requires input.command.CancelForPage?
    {
      var cancelled := locker.CancelForLifecycle();
      if cancelled.ok then this.(locker := cancelled.locker) else this.(locker := cancelled.locker).Fail(input)
    }

    function HandleShutdown(input: Input): Worker
      requires input.command.Shutdown?
    {
      this.(locker := locker.CancelForLifecycle().locker).Stop()
    }

    function Step(input: Input): Worker {
      if stopped then this
      else
        match input.command
        case Register(_) => HandleRegister(input)
        case Detach(_) => HandleDetach(input)
        case Submit(_, _, _) => HandleRequest(input)
        case CancelForPage => HandleCancel(input)
        case SleepComing => HandlePrepare(input)
        case SleepOver => HandleResume(input)
        case CompositorLocked => HandleLocked(input)
        case CompositorFailed => HandleLost(input)
        case CompositorReleased => HandleReleased(input)
        case Shutdown => HandleShutdown(input)
    }

    /** What holds between commands. */
    ghost predicate Inv() {
      match this
      case Worker(locker, channels, native, published, lockedAt, stopped) =>
      && AllServed(channels, published)
      && OneChannelEach(channels)
      && Numbered(LockerMode, published)
      && (if stopped then Halted(native) else Running(locker, native, |published|, lockedAt))
    }
  }

  /** A worker whose backend is ready and whose compositor lock has been requested. */
  function Launched(user: Text, script: seq<PamBackend.Reply>): Worker {
    Worker(Locker(PamBackend.Connected(user, script), FreshPublic(PamBackend.Connected(user, script).conv.state), Acquiring),
           [], [BackendReady], [], 0, false)
  }

  function Run(w: Worker, inputs: seq<Input>): Worker
    decreases |inputs|
  {
    if inputs == [] then w else Run(w, inputs[..|inputs| - 1]).Step(inputs[|inputs| - 1])
  }

  // ---------------------------------------------------------------------------
  // What the channels have carried

  /**
   * A channel has carried everything published since it was registered, up to the moment it was
   * let go: no gap, no repetition, whoever asked.
   */
  ghost predicate Served(channel: Channel, published: seq<Envelope>) {
    match channel
    case Channel(_, from, log, attached) =>
    && from <= |published|
    && Delivered(log) <= published[from..]
    && (attached ==> Delivered(log) == published[from..])
    && Aligned(from, log)
  }

  ghost predicate AllServed(channels: seq<Channel>, published: seq<Envelope>) {
    forall i :: 0 <= i < |channels| ==> Served(channels[i], published)
  }

  ghost predicate OneChannelEach(channels: seq<Channel>) {
    forall i, j :: 0 <= i < j < |channels| && channels[i].attached && channels[j].attached ==>
      channels[i].view != channels[j].view
  }

  // ---------------------------------------------------------------------------
  // What the host has been told

  function NativeFor(lock: LockState): seq<NativeEvent> {
    match lock
    case Acquiring => [BackendReady]
    case Locked => [BackendReady, NativeLocked]
    case Unlocking => [BackendReady, NativeLocked, NativeUnlock]
    case Released => [BackendReady, NativeLocked, NativeUnlock, NativeReleased]
    case LockBroken => []
  }

  ghost predicate Halted(native: seq<NativeEvent>) {
    exists lock: LockState :: !lock.LockBroken? &&
      (native == NativeFor(lock) || native == NativeFor(lock) + [NativeFatal]
       || native == NativeFor(lock) + [NativeLockFailed])
  }

  ghost predicate Running(locker: Locker, native: seq<NativeEvent>, count: nat, lockedAt: nat) {
    && locker.Inv()
    && !locker.lock.LockBroken?
    && native == NativeFor(locker.lock)
    && locker.auth.next == count + 1
    && NoBeginBefore(locker.client.world.log, if locker.lock.Acquiring? then |locker.client.world.log| else lockedAt)
  }

  ghost predicate NoBeginBefore(log: seq<PamBackend.Act>, lockedAt: nat) {
    lockedAt <= |log| && forall i :: 0 <= i < lockedAt ==> !log[i].SentBegin?
  }

  /**
   * Between these two moments a PAM worker reported success and then exited cleanly, and it was the
   * newest one, handed its transaction after the lock was confirmed.
   */
  ghost predicate Justified(before: Locker, after: Locker, lockedAt: nat) {
    && PamBackend.FreshSuccess(before.client.world.log, after.client.world.log)
    && exists i :: lockedAt <= i && PamBackend.HandedAt(after.client.world.log, i)
  }

  /** The only ways the lock may go. */
  predicate LockEdge(before: LockState, after: LockState) {
    || before == after
    || (before.Acquiring? && after.Locked?)
    || (before.Locked? && after.Unlocking?)
    || (before.Unlocking? && after.Released?)
    || (after.LockBroken? && !before.Released?)
  }

  /** What one command may do to the lock and to the PAM processes. */
  ghost predicate Permitted(before: Locker, after: Locker, lockedAt: nat) {
    && LockEdge(before.lock, after.lock)
    && (before.lock.Locked? && after.lock.Unlocking? ==> Justified(before, after, lockedAt))
    && before.client.world.log <= after.client.world.log
    && (!before.lock.Locked? ==> PamBackend.NoBegin(after.client.world.log, |before.client.world.log|))
  }

  /** What one command may do to the worker. */
  ghost predicate Moves(before: Worker, after: Worker) {
    match after
    case Worker(locker, channels, native, published, lockedAt, stopped) =>
    && Permitted(before.locker, locker, lockedAt)
    && before.published <= published
    && before.native <= native && |native| <= |before.native| + 1
    && (native == before.native + [NativeUnlock] ==> before.locker.lock.Locked? && locker.lock.Unlocking?)
    && Extends(before.channels, channels)
  }

  /** Channels only ever grow at their ends, and one that was let go stays as it is. */
  ghost predicate Extends(before: seq<Channel>, after: seq<Channel>) {
    && |before| <= |after|
    && forall i :: 0 <= i < |before| ==> Extended(before[i], after[i])
  }

  ghost predicate Extended(before: Channel, after: Channel) {
    && after.view == before.view && after.from == before.from
    && before.log <= after.log
    && (!before.attached ==> after == before)
  }

  // ---------------------------------------------------------------------------
  // Channels are kept

  lemma SendKeeps(channel: Channel, published: seq<Envelope>, output: Output, room: bool)
    requires Served(channel, published) && channel.attached
    requires Places(output, |published|)
    ensures Served(channel.Send(output, room), published + output.Envelopes())
  {
    var log := channel.log + [output];
    assert log[..|log| - 1] == channel.log;
    assert (published + output.Envelopes())[channel.from..] == published[channel.from..] + output.Envelopes();
  }

  lemma DropKeeps(channel: Channel, published: seq<Envelope>, events: seq<Envelope>)
    requires Served(channel, published) && (!channel.attached || events == [])
    ensures Served(channel, published + events) && Served(channel.Drop(), published + events)
  {
    assert (published + events)[channel.from..] == published[channel.from..] + events;
  }

  lemma DrainKeeps(channels: seq<Channel>, published: seq<Envelope>, room: set<nat>)
    requires AllServed(channels, published)
    ensures AllServed(Drain(channels, room), published) && AllServed(DropAll(channels), published)
    ensures AllServed(DropAll(Drain(channels, room)), published)
    ensures Extends(channels, Drain(channels, room)) && Extends(channels, DropAll(channels))
    ensures Extends(channels, DropAll(Drain(channels, room)))
  {
    forall i | 0 <= i < |channels|
      ensures Served(Drain(channels, room)[i], published) && Served(channels[i].Drop(), published)
      ensures Served(Drain(channels, room)[i].Drop(), published)
    {
      DropKeeps(channels[i], published, []);
      assert published + [] == published;
      if channels[i].attached {
        SendKeeps(channels[i], published, FatalView, i in room);
      }
    }
  }

  lemma BroadcastKeeps(channels: seq<Channel>, published: seq<Envelope>, events: seq<Envelope>, room: set<nat>)
    requires AllServed(channels, published)
    ensures AllServed(Broadcast(channels, None, events, room), published + events)
  {
    forall i | 0 <= i < |channels|
      ensures Served(Broadcast(channels, None, events, room)[i], published + events)
    {
      if channels[i].attached && events != [] {
        SendKeeps(channels[i], published, Told(events), i in room);
      } else {
        DropKeeps(channels[i], published, events);
      }
    }
  }

  /** The origin gets its answer with the events, every other view the events alone: nobody misses any. */
  lemma AnswerKeeps(channels: seq<Channel>, published: seq<Envelope>, view: nat, answer: Output, room: set<nat>)
    requires AllServed(channels, published) && answer.Answered?
    requires Places(answer, |published|)
    ensures AllServed(Broadcast(SendToView(channels, view, answer, room), Some(view), answer.events, room),
                      published + answer.events)
  {
    var events := answer.events;
    var told := Broadcast(SendToView(channels, view, answer, room), Some(view), events, room);
    forall i | 0 <= i < |channels| ensures Served(told[i], published + events) {
      var channel := channels[i];
      if IsView(channel, view) {
        assert told[i] == channel.Send(answer, i in room);
        SendKeeps(channel, published, answer, i in room);
      } else if channel.attached && events != [] {
        SendKeeps(channel, published, Told(events), i in room);
      } else {
        DropKeeps(channel, published, events);
      }
    }
  }

  /** Removing channels from the map never makes two of them share a view. */
  lemma ExtendsKeepsViews(before: seq<Channel>, after: seq<Channel>)
    requires OneChannelEach(before) && Extends(before, after) && |before| == |after|
    ensures OneChannelEach(after)
  {
    forall i, j | 0 <= i < j < |after| && after[i].attached && after[j].attached
      ensures after[i].view != after[j].view
    {
      assert Extended(before[i], after[i]) && Extended(before[j], after[j]);
    }
  }

  lemma ExtendsOn(before: seq<Channel>, middle: seq<Channel>, after: seq<Channel>)
    requires Extends(before, middle) && Extends(middle, after)
    ensures Extends(before, after)
  {
    forall i | 0 <= i < |before| ensures Extended(before[i], after[i]) {
      assert Extended(before[i], middle[i]) && Extended(middle[i], after[i]);
    }
  }

  lemma RemoveKeeps(channels: seq<Channel>, published: seq<Envelope>, view: nat)
    requires AllServed(channels, published) && OneChannelEach(channels)
    ensures var removed := RemoveView(channels, view);
      && AllServed(removed, published) && OneChannelEach(removed) && Extends(channels, removed)
      && forall i :: 0 <= i < |removed| && removed[i].attached ==> removed[i].view != view
  {
    forall i | 0 <= i < |channels| ensures Served(RemoveView(channels, view)[i], published) {
      DropKeeps(channels[i], published, []);
      assert published + [] == published;
    }
  }

  // ---------------------------------------------------------------------------
  // Every command keeps the invariant

  /** A running worker in the middle of a command: everything but its tie to the host is as it will be. */
  ghost predicate Partway(before: Worker, next: Worker) {
    match next
    case Worker(locker, channels, native, published, lockedAt, stopped) =>
    && before.Inv() && !before.stopped && !stopped
    && AllServed(channels, published) && OneChannelEach(channels) && Extends(before.channels, channels)
    && Numbered(LockerMode, published) && before.published <= published
    && native == before.native
    && Permitted(before.locker, locker, lockedAt)
  }

  ghost predicate Keeps(before: Worker, after: Worker) {
    after.Inv() && Moves(before, after)
  }

  lemma StopKeeps(before: Worker, next: Worker)
    requires Partway(before, next)
    ensures Keeps(before, next.Stop())
  {
    DrainKeeps(next.channels, next.published, {});
    ExtendsOn(before.channels, next.channels, DropAll(next.channels));
    assert next.native == NativeFor(before.locker.lock);
  }

  lemma FatalIsNoUnlock(native: seq<NativeEvent>, lock: LockState, host: bool)
    requires native == NativeFor(lock) && !lock.LockBroken?
    ensures var told := if host then native + [NativeFatal] else native;
      Halted(told) && native <= told && |told| <= |native| + 1 && told != native + [NativeUnlock]
  {
    assert (native + [NativeFatal])[|native|] != (native + [NativeUnlock])[|native|];
  }

  lemma FailKeeps(before: Worker, next: Worker, input: Input)
    requires Partway(before, next)
    ensures Keeps(before, next.Fail(input))
  {
    DrainKeeps(next.channels, next.published, input.fatalRoom);
    ExtendsOn(before.channels, next.channels, DropAll(Drain(next.channels, input.fatalRoom)));
    FatalIsNoUnlock(next.native, before.locker.lock, input.host);
    var dropped := DropAll(Drain(next.channels, input.fatalRoom));
    var failed := next.Fail(input);
    assert failed.channels == dropped;
  }

  /** A worker whose controller has just handled a command, and nothing else has happened. */
  ghost predicate Handling(before: Worker, next: Worker, events: seq<Envelope>, unlock: bool) {
    && before.Inv() && !before.stopped
    && next == before.(locker := next.locker)
    && Accounts(before.locker, next.locker, events, unlock)
  }

  /** The authorization is consumed, justified, in the very command that granted it. */
  lemma ConsumeIsJustified(before: Worker, next: Worker, events: seq<Envelope>, unlock: bool)
    requires Handling(before, next, events, unlock)
    ensures var consumed := next.Consume(unlock);
      && consumed.Some? && consumed.value == next.(locker := consumed.value.locker)
      && Consumed(before, next, consumed.value, unlock)
  {
    AuthorizationIsHonoured(before.locker, next.locker, events, unlock);
    if unlock {
      var i := PamBackend.ServingWasHanded(next.locker.client.world.log);
      assert before.lockedAt <= i;
    }
  }

  ghost predicate Consumed(before: Worker, next: Worker, after: Worker, unlock: bool) {
    match after.locker
    case Locker(client, auth, lock) =>
    && after.locker.Inv() && Permitted(before.locker, after.locker, before.lockedAt)
    && client == next.locker.client && auth == next.locker.auth
    && lock == (if unlock then Unlocking else before.locker.lock)
    && (unlock ==> before.locker.lock.Locked?)
  }

  lemma TellingExtends(channels: seq<Channel>, view: nat, answer: Output, events: seq<Envelope>, room: set<nat>)
    requires OneChannelEach(channels)
    ensures var told := Broadcast(SendToView(channels, view, answer, room), Some(view), events, room);
      Extends(channels, told) && OneChannelEach(told)
    ensures var told := Broadcast(channels, None, events, room);
      Extends(channels, told) && OneChannelEach(told)
  {
    var answered := SendToView(channels, view, answer, room);
    var told := Broadcast(answered, Some(view), events, room);
    forall i | 0 <= i < |channels| ensures Extended(channels[i], told[i]) {
      if IsView(channels[i], view) {
        assert told[i] == channels[i].Send(answer, i in room);
      }
    }
    ExtendsKeepsViews(channels, told);
    ExtendsKeepsViews(channels, Broadcast(channels, None, events, room));
  }

  /** A running worker whose controller has settled but whose host has yet to hear of it. */
  ghost predicate Due(before: Worker, next: Worker) {
    && Partway(before, next)
    && next.locker.Inv() && next.lockedAt == before.lockedAt
    && next.locker.auth.next == |next.published| + 1
  }

  lemma AuthorizeKeeps(before: Worker, next: Worker, unlock: bool, input: Input)
    requires Due(before, next)
    requires unlock ==> before.locker.lock.Locked?
    requires next.locker.lock == if unlock then Unlocking else before.locker.lock
    ensures Keeps(before, next.Authorize(unlock, input))
  {
    if unlock && !input.host {
      FailKeeps(before, next, input);
    }
  }

  lemma DrainedIsPartway(before: Worker, next: Worker, room: set<nat>)
    requires Partway(before, next)
    ensures Partway(before, next.(channels := Drain(next.channels, room)))
  {
    DrainKeeps(next.channels, next.published, room);
    ExtendsOn(before.channels, next.channels, Drain(next.channels, room));
  }

  /** The snapshot of a batch comes alone and names the last published event. */
  lemma BatchPlaces(l: Locker, request: Request, epoch: nat)
    requires l.Settled() && l.Handle(request).batch.Some?
    ensures var batch := l.Handle(request).batch.value;
      Places(Answered(epoch, batch.response, batch.events, false), l.auth.next - 1)
  {
    if request.StateGet? {
      StateGetAnswers(l);
    }
  }

  lemma TellAllIsDue(before: Worker, next: Worker, view: nat, epoch: nat, batch: Batch, input: Input)
    requires before.Inv() && !before.stopped && next == before.(locker := next.locker)
    requires Continues(before.locker.auth, next.locker.auth, batch.events) && AllBelong(LockerMode, EventsOf(batch.events))
    requires Places(Answered(epoch, batch.response, batch.events, false), |before.published|)
    requires next.locker.Inv() && Permitted(before.locker, next.locker, before.lockedAt)
    ensures Due(before, next.TellAll(view, epoch, batch, input))
  {
    var answer := Answered(epoch, batch.response, batch.events, false);
    NumbersGoOn(LockerMode, before.published, before.locker.auth, next.locker.auth, batch.events);
    AnswerKeeps(before.channels, before.published, view, answer, input.room);
    TellingExtends(before.channels, view, answer, batch.events, input.room);
    var told := Broadcast(SendToView(before.channels, view, answer, input.room), Some(view), batch.events, input.room);
    DrainedIsPartway(before, next.(published := before.published + batch.events, channels := told), input.fatalRoom);
  }

  lemma BatchKeeps(before: Worker, next: Worker, view: nat, epoch: nat, batch: Batch, input: Input)
    requires Handling(before, next, batch.events, batch.unlockAuthorized)
    requires Places(Answered(epoch, batch.response, batch.events, false), |before.published|)
    ensures Keeps(before, next.HandleBatch(view, epoch, batch, input))
  {
    ConsumeIsJustified(before, next, batch.events, batch.unlockAuthorized);
    var consumed := next.Consume(batch.unlockAuthorized).value;
    TellAllIsDue(before, consumed, view, epoch, batch, input);
    AuthorizeKeeps(before, consumed.TellAll(view, epoch, batch, input), batch.unlockAuthorized, input);
  }

  lemma RequestKeeps(w: Worker, input: Input)
    requires w.Inv() && !w.stopped && input.command.Submit?
    ensures Keeps(w, w.HandleRequest(input))
  {
    var Submit(view, epoch, request) := input.command;
    var Handled(handled, batch) := w.locker.Handle(request);
    HandleAccounts(w.locker, request);
    if !HasView(w.channels, view) {
      AuthorizeKeeps(w, w, false, input);
    } else if batch.None? {
      RequestOnlyWhenLocked(w.locker, request);
      FailKeeps(w, w.(locker := handled), input);
    } else {
      BatchPlaces(w.locker, request, epoch);
      BatchKeeps(w, w.(locker := handled), view, epoch, batch.value, input);
    }
  }

  /** A request can only be fatal while the lock is held. */
  lemma RequestOnlyWhenLocked(l: Locker, request: Request)
    requires l.Settled() && l.Handle(request).batch.None?
    ensures l.lock.Locked?
  {
  }

  lemma PublishAllIsPartway(before: Worker, next: Worker, events: seq<Envelope>, input: Input)
    requires before.Inv() && !before.stopped && next == before.(locker := next.locker, lockedAt := next.lockedAt)
    requires Continues(before.locker.auth, next.locker.auth, events) && AllBelong(LockerMode, EventsOf(events))
    requires Permitted(before.locker, next.locker, next.lockedAt)
    ensures Partway(before, next.PublishAll(events, input))
    ensures next.locker.auth.next == |before.published + events| + 1
  {
    NumbersGoOn(LockerMode, before.published, before.locker.auth, next.locker.auth, events);
    BroadcastKeeps(before.channels, before.published, events, input.room);
    TellingExtends(before.channels, 0, Ready, events, input.room);
  }

  lemma PublishAllIsDue(before: Worker, next: Worker, events: seq<Envelope>, input: Input)
    requires before.Inv() && !before.stopped && next == before.(locker := next.locker)
    requires Continues(before.locker.auth, next.locker.auth, events) && AllBelong(LockerMode, EventsOf(events))
    requires next.locker.Inv() && Permitted(before.locker, next.locker, before.lockedAt)
    ensures Due(before, next.PublishAll(events, input))
  {
    PublishAllIsPartway(before, next, events, input);
  }

  lemma LifecycleKeeps(before: Worker, next: Worker, batch: LifecycleBatch, input: Input)
    requires Handling(before, next, batch.events, batch.unlockAuthorized)
    ensures Keeps(before, next.HandleLifecycle(Some(batch), input))
  {
    ConsumeIsJustified(before, next, batch.events, batch.unlockAuthorized);
    var consumed := next.Consume(batch.unlockAuthorized).value;
    PublishAllIsDue(before, consumed, batch.events, input);
    AuthorizeKeeps(before, consumed.PublishAll(batch.events, input), batch.unlockAuthorized, input);
  }

  lemma PrepareKeeps(w: Worker, input: Input)
    requires w.Inv() && !w.stopped && input.command.SleepComing?
    ensures Keeps(w, w.HandlePrepare(input))
  {
    PrepareAccounts(w.locker);
    var Lifecycle(handled, reported) := w.locker.PrepareForSleep();
    match reported
    case None => FailKeeps(w, w.(locker := handled), input);
    case Some(batch) => LifecycleKeeps(w, w.(locker := handled), batch, input);
  }

  lemma ResumeKeeps(w: Worker, input: Input)
    requires w.Inv() && !w.stopped && input.command.SleepOver?
    ensures Keeps(w, w.HandleResume(input))
  {
    ResumeAccounts(w.locker);
    var Lifecycle(handled, reported) := w.locker.ResumeAfterSleep();
    match reported
    case None => FailKeeps(w, w.(locker := handled), input);
    case Some(batch) => LifecycleKeeps(w, w.(locker := handled), batch, input);
  }

  lemma NoticeIsNoUnlock(native: seq<NativeEvent>, notice: NativeEvent)
    requires !notice.NativeUnlock?
    ensures native + [notice] != native + [NativeUnlock]
  {
    assert (native + [notice])[|native|] != (native + [NativeUnlock])[|native|];
  }

  /** What recording a lock event does to the controller. */
  lemma MarkRecords(l: Locker, allowed: bool, next: LockState, event: Event)
    requires l.Settled() && (event.LockAcquired? || event.LockFailed? || event.LockReleased?)
    ensures var Marked(after, events) := l.Mark(allowed, next, event);
      && after.client == l.client && after.lock == (if allowed then next else l.lock)
      && (events.Some? ==>
            && allowed && after.Settled() && after.auth.authentication == l.auth.authentication
            && Continues(l.auth, after.auth, events.value) && AllBelong(LockerMode, EventsOf(events.value)))
  {
    if l.Mark(allowed, next, event).events.Some? {
      StampContinues(l.auth, [event]);
    }
  }

  /** A lock event recorded in order reaches every view and the host; out of order it is fatal. */
  lemma MarkIsPartway(w: Worker, lockedAt: nat, allowed: bool, next: LockState, event: Event, input: Input)
    requires w.Inv() && !w.stopped
    requires allowed ==> LockEdge(w.locker.lock, next) && !next.Unlocking?
    requires event.LockAcquired? || event.LockFailed? || event.LockReleased?
    ensures var marked := w.locker.Mark(allowed, next, event);
      match marked.events
      case None => Partway(w, w.(lockedAt := lockedAt, locker := marked.locker))
      case Some(events) =>
        && Partway(w, w.(lockedAt := lockedAt, locker := marked.locker).PublishAll(events, input))
        && marked.locker.auth.next == |w.published + events| + 1
        && marked.locker.client == w.locker.client && marked.locker.lock == next && allowed
        && marked.locker.Settled() && marked.locker.auth.authentication == w.locker.auth.authentication
  {
    var marked := w.locker.Mark(allowed, next, event);
    MarkRecords(w.locker, allowed, next, event);
    if marked.events.Some? {
      PublishAllIsPartway(w, w.(lockedAt := lockedAt, locker := marked.locker), marked.events.value, input);
    }
  }

  /** A host that hears of the lock's new state is told what belongs to it. */
  lemma NoticedKeeps(before: Worker, shown: Worker, notice: NativeEvent)
    requires Partway(before, shown) && !notice.NativeUnlock?
    requires Running(shown.locker, before.native + [notice], |shown.published|, shown.lockedAt)
    ensures Keeps(before, shown.(native := shown.native + [notice]))
  {
    NoticeIsNoUnlock(before.native, notice);
  }

  lemma LockedKeeps(w: Worker, input: Input)
    requires w.Inv() && !w.stopped && input.command.CompositorLocked?
    ensures Keeps(w, w.HandleLocked(input))
  {
    var lockedAt, marked := |w.locker.client.world.log|, w.locker.MarkAcquired();
    MarkIsPartway(w, lockedAt, w.locker.lock.Acquiring?, Locked, LockAcquired, input);
    if marked.events.None? {
      FailKeeps(w, w.(lockedAt := lockedAt, locker := marked.locker), input);
    } else {
      var shown := w.(lockedAt := lockedAt, locker := marked.locker).PublishAll(marked.events.value, input);
      if input.host {
        NoticedKeeps(w, shown, NativeLocked);
      } else {
        StopKeeps(w, shown);
      }
    }
  }

  lemma ReleasedKeeps(w: Worker, input: Input)
    requires w.Inv() && !w.stopped && input.command.CompositorReleased?
    ensures Keeps(w, w.HandleReleased(input))
  {
    var marked := w.locker.MarkReleased();
    MarkIsPartway(w, w.lockedAt, w.locker.lock.Unlocking?, Released, LockReleased, input);
    if marked.events.None? {
      FailKeeps(w, w.(locker := marked.locker), input);
    } else {
      var shown := w.(locker := marked.locker).PublishAll(marked.events.value, input);
      if input.host {
        NoticedKeeps(w, shown, NativeReleased);
      } else {
        StopKeeps(w, shown);
      }
    }
  }

  lemma LostKeeps(w: Worker, input: Input)
    requires w.Inv() && !w.stopped && input.command.CompositorFailed?
    ensures Keeps(w, w.HandleLost(input))
  {
    var lock, marked := w.locker.lock, w.locker.MarkFailed();
    MarkIsPartway(w, w.lockedAt, !lock.LockBroken? && !lock.Released?, LockBroken, LockFailed, input);
    NoticeIsNoUnlock(w.native, NativeLockFailed);
    if marked.events.None? {
      FailKeeps(w, w.(locker := marked.locker), input);
      StoppedTwice(w.(locker := marked.locker).Fail(input));
    } else {
      var shown := w.(locker := marked.locker).PublishAll(marked.events.value, input);
      StopKeeps(w, shown);
      StoppedTwice(shown.Stop());
      assert Halted(w.native + [NativeLockFailed]);
    }
  }

  lemma StoppedTwice(w: Worker)
    requires w.stopped && forall i :: 0 <= i < |w.channels| ==> !w.channels[i].attached
    ensures w.Stop() == w
  {
    assert DropAll(w.channels) == w.channels;
  }

  lemma CancelKeeps(w: Worker, input: Input)
    requires w.Inv() && !w.stopped && input.command.CancelForPage?
    ensures Keeps(w, w.HandleCancel(input))
  {
    CancelSettles(w.locker);
  }

  lemma ShutdownKeeps(w: Worker, input: Input)
    requires w.Inv() && !w.stopped && input.command.Shutdown?
    ensures Keeps(w, w.HandleShutdown(input))
  {
    CancelSettles(w.locker);
    StopKeeps(w, w.(locker := w.locker.CancelForLifecycle().locker));
  }

  lemma RegisterKeeps(w: Worker, input: Input)
    requires w.Inv() && !w.stopped && input.command.Register?
    ensures Keeps(w, w.HandleRegister(input))
  {
    RemoveKeeps(w.channels, w.published, input.command.view);
    ReadyCarriesNothing(|w.published|);
    assert w.published[|w.published|..] == [];
    assert Served(Channel(input.command.view, |w.published|, [Ready], true), w.published);
  }

  lemma DetachKeeps(w: Worker, input: Input)
    requires w.Inv() && !w.stopped && input.command.Detach?
    ensures Keeps(w, w.HandleDetach(input))
  {
    RemoveKeeps(w.channels, w.published, input.command.view);
  }

  /** Every command, in every environment, keeps the invariant and moves the lock only as it may. */
  lemma StepKeeps(w: Worker, input: Input)
    requires w.Inv()
    ensures Keeps(w, w.Step(input))
  {
    if !w.stopped {
      match input.command
      case Register(_) => RegisterKeeps(w, input);
      case Detach(_) => DetachKeeps(w, input);
      case Submit(_, _, _) => RequestKeeps(w, input);
      case CancelForPage => CancelKeeps(w, input);
      case SleepComing => PrepareKeeps(w, input);
      case SleepOver => ResumeKeeps(w, input);
      case CompositorLocked => LockedKeeps(w, input);
      case CompositorFailed => LostKeeps(w, input);
      case CompositorReleased => ReleasedKeeps(w, input);
      case Shutdown => ShutdownKeeps(w, input);
    }
  }

  // ---------------------------------------------------------------------------
  // Whole runs

  lemma LaunchKeeps(user: Text, script: seq<PamBackend.Reply>)
    requires user != []
    ensures Launched(user, script).Inv()
  {
    PamBackend.ConnectedIsSettled(user, script);
  }

  lemma {:induction false} RunKeeps(w: Worker, inputs: seq<Input>)
    requires w.Inv()
    ensures Run(w, inputs).Inv()
    decreases |inputs|
  {
    if inputs != [] {
      RunKeeps(w, inputs[..|inputs| - 1]);
      StepKeeps(Run(w, inputs[..|inputs| - 1]), inputs[|inputs| - 1]);
    }
  }

  lemma AtMostOneUnlock(native: seq<NativeEvent>, lock: LockState)
    requires native == NativeFor(lock) || native == NativeFor(lock) + [NativeFatal]
             || native == NativeFor(lock) + [NativeLockFailed]
    ensures forall i, j :: 0 <= i < j < |native| && native[i].NativeUnlock? ==> !native[j].NativeUnlock?
  {
  }

  /**
   * The safety of the lock: over every sequence of commands, whatever PAM, the views and the host do,
   * the host is told to unlock at most once, and only by a command that found the lock held and
   * during which the newest PAM worker, handed its transaction since the lock was confirmed,
   * reported success and exited cleanly.
   */
  lemma {:induction false} UnlockIsSafe(user: Text, script: seq<PamBackend.Reply>, inputs: seq<Input>)
    requires user != []
    ensures var native := Run(Launched(user, script), inputs).native;
      && (forall i, j :: 0 <= i < j < |native| && native[i].NativeUnlock? ==> !native[j].NativeUnlock?)
      && (NativeUnlock in native ==> exists k: nat :: k < |inputs| && UnlockedAt(Launched(user, script), inputs, k))
  {
    var w := Launched(user, script);
    LaunchKeeps(user, script);
    RunKeeps(w, inputs);
    var native := Run(w, inputs).native;
    if Run(w, inputs).stopped {
      var lock: LockState :| !lock.LockBroken? && (native == NativeFor(lock) || native == NativeFor(lock) + [NativeFatal]
                                        || native == NativeFor(lock) + [NativeLockFailed]);
      AtMostOneUnlock(native, lock);
    } else {
      AtMostOneUnlock(native, Run(w, inputs).locker.lock);
    }
    if NativeUnlock in native {
      var k := UnlockHasCause(w, inputs);
    }
  }

  /** The k-th command made the host unlock a lock that was held until then, on a success reported during it. */
  ghost predicate UnlockedAt(w: Worker, inputs: seq<Input>, k: nat)
    requires k < |inputs|
  {
    var before, after := Run(w, inputs[..k]), Run(w, inputs[..k]).Step(inputs[k]);
    && after.native == before.native + [NativeUnlock]
    && before.locker.lock.Locked? && after.locker.lock.Unlocking?
    && Justified(before.locker, after.locker, after.lockedAt)
  }

  lemma {:induction false} UnlockHasCause(w: Worker, inputs: seq<Input>) returns (k: nat)
    requires w.Inv() && NativeUnlock !in w.native && NativeUnlock in Run(w, inputs).native
    ensures k < |inputs| && UnlockedAt(w, inputs, k)
    decreases |inputs|
  {
    var n := |inputs| - 1;
    var before := Run(w, inputs[..n]);
    RunKeeps(w, inputs[..n]);
    StepKeeps(before, inputs[n]);
    if NativeUnlock in before.native {
      k := UnlockHasCause(w, inputs[..n]);
      assert inputs[..n][..k] == inputs[..k];
    } else {
      k := n;
      NewUnlockIsJustified(before, before.Step(inputs[n]));
    }
  }

  /** A command that makes the unlock notice appear was permitted to. */
  lemma NewUnlockIsJustified(before: Worker, after: Worker)
    requires Moves(before, after) && NativeUnlock !in before.native && NativeUnlock in after.native
    ensures after.native == before.native + [NativeUnlock]
    ensures before.locker.lock.Locked? && after.locker.lock.Unlocking?
    ensures Justified(before.locker, after.locker, after.lockedAt)
  {
    assert after.native == before.native + after.native[|before.native|..];
  }

  /** Every step of a run moves the lock along its lifecycle only. */
  lemma LockFollowsItsPath(w: Worker, inputs: seq<Input>, k: nat)
    requires w.Inv() && k < |inputs|
    ensures LockEdge(Run(w, inputs[..k]).locker.lock, Run(w, inputs[..k + 1]).locker.lock)
  {
    RunKeeps(w, inputs[..k]);
    StepKeeps(Run(w, inputs[..k]), inputs[k]);
    assert inputs[..k + 1][..k] == inputs[..k];
  }

  /**
   * Every view sees one gap-free interval of the controller's events: the i-th event on its channel
   * carries the number right after the i events before it and those published before it registered,
   * and a view that is still attached has been sent everything since.
   */
  lemma ViewsSeeAnInterval(w: Worker, inputs: seq<Input>, channel: nat)
    requires w.Inv() && channel < |Run(w, inputs).channels|
    ensures var Channel(_, from, log, attached) := Run(w, inputs).channels[channel];
      && (forall i :: 0 <= i < |Delivered(log)| ==> Delivered(log)[i].sequence == from + i + 1)
      && (attached ==> from + |Delivered(log)| == |Run(w, inputs).published|)
  {
    RunKeeps(w, inputs);
    assert Served(Run(w, inputs).channels[channel], Run(w, inputs).published);
  }

  /**
   * Between commands the public authentication is the backend's, and a lock that is still held has
   * not been authenticated for: success and unlocking happen within one command.
   */
  lemma HeldMeansUnauthenticated(w: Worker, inputs: seq<Input>)
    requires w.Inv() && !Run(w, inputs).stopped
    ensures var locker := Run(w, inputs).locker;
      && locker.auth.authentication == MapState(locker.client.conv.state)
      && locker.auth.Mirrors(locker.client.conv)
      && (locker.lock.Locked? ==> !locker.client.conv.state.Authenticated?)
      && locker.auth.Watermark() == |Run(w, inputs).published|
  {
    RunKeeps(w, inputs);
  }

  // ---------------------------------------------------------------------------
  // The mutable object

  class LockerWorker {
    const controller: LockerController
    var channels: seq<Channel>
    var native: seq<NativeEvent>
    var stopped: bool
    var published: seq<Envelope>
    ghost var lockedAt: nat

    ghost function Model(): Worker
      reads this, controller.Repr()
    {
      Worker(controller.Model(), channels, native, published, lockedAt, stopped)
    }

    constructor (user: Text, script: seq<PamBackend.Reply>)
      ensures Model() == Launched(user, script)
      ensures fresh(controller.Repr())
    {
      var backend := new PamBackend.PamReauthBackend(user, script);
      controller := new LockerController(backend);
      channels, native, stopped, published, lockedAt := [], [BackendReady], false, [], 0;
    }

    /** The reaction to one command. */
    method Step(input: Input)
      modifies this, controller.Repr()
      ensures Model() == old(Model()).Step(input)
    {
      if stopped {
        return;
      }
      match input.command
      case Register(_) => HandleRegister(input);
      case Detach(view) => Remove(view);
      case Submit(_, _, _) => HandleRequest(input);
      case CancelForPage =>
        var ok := controller.CancelForLifecycle();
        if !ok {
          Fail(input);
        }
      case SleepComing =>
        var batch := controller.PrepareForSleep();
        HandleLifecycle(batch, input);
      case SleepOver =>
        var batch := controller.ResumeAfterSleep();
        HandleLifecycle(batch, input);
      case CompositorLocked => HandleLocked(input);
      case CompositorFailed => HandleLost(input);
      case CompositorReleased => HandleReleased(input);
      case Shutdown =>
        var _ := controller.CancelForLifecycle();
        Stop();
    }

    method HandleLocked(input: Input)
      requires input.command.CompositorLocked?
      modifies this, controller.Repr()
      ensures Model() == old(Model()).HandleLocked(input)
    {
      lockedAt := |controller.client.workers.log|;
      ghost var before := Model();
      var events := controller.MarkLockAcquired();
      assert Model() == before.(locker := controller.Model());
      Announce(events, NativeLocked, input);
    }

    method HandleLost(input: Input)
      requires input.command.CompositorFailed?
      modifies this, controller.Repr()
      ensures Model() == old(Model()).HandleLost(input)
    {
      ghost var before := Model();
      var events := controller.MarkLockFailed();
      assert Model() == before.(locker := controller.Model());
      Announce(events, NativeLockFailed, input);
      Stop();
    }

    method HandleReleased(input: Input)
      requires input.command.CompositorReleased?
      modifies this, controller.Repr()
      ensures Model() == old(Model()).HandleReleased(input)
    {
      ghost var before := Model();
      var events := controller.MarkLockReleased();
      assert Model() == before.(locker := controller.Model());
      Announce(events, NativeReleased, input);
    }

    /** Tells every view and then the host of a lock event, or fails if there is none. */
    method Announce(events: Option<seq<Envelope>>, notice: NativeEvent, input: Input)
      modifies this
      ensures Model() == old(Model()).HandleMark(events, notice, input)
    {
      if events.None? {
        Fail(input);
        return;
      }
      published := published + events.value;
      BroadcastEvents(None, events.value, input.room);
      if input.host {
        native := native + [notice];
      } else {
        Stop();
      }
    }

    method HandleRegister(input: Input)
      requires input.command.Register?
      modifies this
      ensures Model() == old(Model()).HandleRegister(input)
    {
      if input.listening {
        var view := input.command.view;
        Remove(view);
        channels := channels + [Channel(view, |published|, [Ready], true)];
      }
    }

    method HandleRequest(input: Input)
      requires input.command.Submit?
      modifies this, controller.Repr()
      ensures Model() == old(Model()).HandleRequest(input)
    {
      var Submit(view, epoch, request) := input.command;
      if !HasView(channels, view) {
        return;
      }
      ghost var before := Model();
      var reported := controller.Handle(request);
      ghost var handled := controller.Model();
      assert Handled(handled, reported) == before.locker.Handle(request);
      assert Model() == before.(locker := handled);
      if reported.None? {
        Fail(input);
      } else {
        HandleBatch(view, epoch, reported.value, input);
      }
    }

    method HandleBatch(view: nat, epoch: nat, batch: Batch, input: Input)
      modifies this, controller.Repr()
      ensures Model() == old(Model()).HandleBatch(view, epoch, batch, input)
    {
      if batch.unlockAuthorized {
        var ok := controller.BeginUnlock();
        if !ok {
          Fail(input);
          return;
        }
      }
      SendTo(view, Answered(epoch, batch.response, batch.events, false), input.room);
      published := published + batch.events;
      BroadcastEvents(Some(view), batch.events, input.room);
      if batch.trustedFallback {
        DrainViews(input.fatalRoom);
      }
      Authorize(batch.unlockAuthorized, input);
    }

    method HandleLifecycle(batch: Option<LifecycleBatch>, input: Input)
      modifies this, controller.Repr()
      ensures Model() == old(Model()).HandleLifecycle(batch, input)
    {
      if batch.None? {
        Fail(input);
        return;
      }
      if batch.value.unlockAuthorized {
        var ok := controller.BeginUnlock();
        if !ok {
          Fail(input);
          return;
        }
      }
      published := published + batch.value.events;
      BroadcastEvents(None, batch.value.events, input.room);
      Authorize(batch.value.unlockAuthorized, input);
    }

    method Authorize(unlock: bool, input: Input)
      modifies this
      ensures Model() == old(Model()).Authorize(unlock, input)
    {
      if unlock {
        if input.host {
          native := native + [NativeUnlock];
        } else {
          Fail(input);
        }
      }
    }

    method Fail(input: Input)
      modifies this
      ensures Model() == old(Model()).Fail(input)
    {
      DrainViews(input.fatalRoom);
      if input.host {
        native := native + [NativeFatal];
      }
      Stop();
    }

    method Stop()
      modifies this
      ensures Model() == old(Model()).Stop()
    {
      stopped := true;
      DropViews();
    }

    method DropViews()
      modifies this`channels
      ensures channels == DropAll(old(channels))
    {
      for i := 0 to |channels|
        invariant |channels| == old(|channels|)
        invariant forall j :: 0 <= j < i ==> channels[j] == old(channels)[j].Drop()
        invariant forall j :: i <= j < |channels| ==> channels[j] == old(channels)[j]
      {
        channels := channels[i := channels[i].Drop()];
      }
    }

    method Remove(view: nat)
      modifies this`channels
      ensures channels == RemoveView(old(channels), view)
    {
      for i := 0 to |channels|
        invariant |channels| == old(|channels|)
        invariant forall j :: 0 <= j < i ==> channels[j] == old(channels)[j].Without(view)
        invariant forall j :: i <= j < |channels| ==> channels[j] == old(channels)[j]
      {
        if IsView(channels[i], view) {
          channels := channels[i := channels[i].Drop()];
        }
      }
      assert channels == RemoveView(old(channels), view);
    }

    method SendTo(view: nat, output: Output, room: set<nat>)
      modifies this`channels
      ensures channels == SendToView(old(channels), view, output, room)
    {
      for i := 0 to |channels|
        invariant |channels| == old(|channels|)
        invariant forall j :: 0 <= j < i ==> channels[j] == old(channels)[j].Answer(view, output, j in room)
        invariant forall j :: i <= j < |channels| ==> channels[j] == old(channels)[j]
      {
        if IsView(channels[i], view) {
          channels := channels[i := channels[i].Send(output, i in room)];
        }
      }
      assert channels == SendToView(old(channels), view, output, room);
    }

    method BroadcastEvents(excluded: Option<nat>, events: seq<Envelope>, room: set<nat>)
      modifies this`channels
      ensures channels == Broadcast(old(channels), excluded, events, room)
    {
      for i := 0 to |channels|
        invariant |channels| == old(|channels|)
        invariant forall j :: 0 <= j < i ==> channels[j] == old(channels)[j].Hear(excluded, events, j in room)
        invariant forall j :: i <= j < |channels| ==> channels[j] == old(channels)[j]
      {
        if channels[i].attached && excluded != Some(channels[i].view) && events != [] {
          channels := channels[i := channels[i].Send(Told(events), i in room)];
        }
      }
      assert channels == Broadcast(old(channels), excluded, events, room);
    }

    method DrainViews(room: set<nat>)
      modifies this`channels
      ensures channels == Drain(old(channels), room)
    {
      for i := 0 to |channels|
        invariant |channels| == old(|channels|)
        invariant forall j :: 0 <= j < i ==> channels[j] == old(channels)[j].End(j in room)
        invariant forall j :: i <= j < |channels| ==> channels[j] == old(channels)[j]
      {
        if channels[i].attached {
          channels := channels[i := channels[i].Send(FatalView, i in room).Drop()];
        }
      }
      assert channels == Drain(old(channels), room);
    }
  }
}

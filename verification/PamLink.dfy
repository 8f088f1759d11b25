/**
 * The reauthentication backend and its PAM worker as one system: two processes joined by two
 * FIFO channels, under every interleaving, every PAM stack and every user.
 */
module PamLink {
  import opened Prelude
  import opened Core
  import opened PamBackend
  import W = PamWorker
  import Ipc

  /** Where a worker process is between two of its blocking or sending points. */
  datatype Phase =
    | AwaitBegin
    | Running(left: seq<W.Call>, account: bool)
    | AwaitAnswer(prompt: Ipc.U64, left: seq<W.Call>, account: bool)
    | Exited(outcome: W.Outcome)
    | Gone

  datatype Worker = Worker(stack: W.Stack, phase: Phase, peer: W.Peer)

  datatype Shown = Shown(id: nat, kind: PromptKind, text: Text)

  datatype Given = Given(id: nat, response: Text)

  /**
   * The two processes, their channels, and the history of the current transaction: the prompt
   * frames PAM asked, the core prompts the parent showed for them, the answers the user gave, and the
   * answers PAM got.
   */
  datatype Link = Link(
    parent: Backend, driving: bool, error: Option<BackendError>,
    worker: Worker, toWorker: seq<Ipc.ParentMessage>, toParent: seq<Ipc.WorkerMessage>,
    asked: seq<Ipc.WorkerMessage>, shown: seq<Shown>, given: seq<Given>, got: seq<Text>)

  datatype Move =
    | UserBegin(stack: W.Stack, spawns: bool, delivered: bool)
    | UserRespond(prompt: nat, response: Text, delivered: bool)
    | UserCancel
    | ParentReceive(exits: bool)
    | ParentTimeout
    | WorkerMove

  predicate InBounds(response: Text) {
    |response| <= Ipc.MAX_ANSWER_BYTES && 0 !in response
  }

  /** A worker that announced itself ready and waits for its transaction. */
  function Prepared(stack: W.Stack): Worker {
    Worker(stack, AwaitBegin, W.Peer(1, 1, false))
  }

  function Facing(b: Backend, replies: seq<Reply>): Backend {
    b.(world := World(replies, b.world.log))
  }

  function Acknowledged(ok: bool): Reply {
    if ok then Done else Broken(Lost)
  }

  // ---------------------------------------------------------------------------
  // Steps

  /** The parent after a call or a receive: still receiving, or settled; a dead worker takes its channels along. */
  function Settled(l: Link, turn: Turn): Link {
    match turn
    case Again(next) => l.(parent := next, driving := true, error := None)
    case Over(Ran(after, error)) =>
      if after.live then
        l.(parent := after, driving := false, error := error)
      else
        l.(parent := after, driving := false, error := error,
           worker := l.worker.(phase := Gone), toWorker := [], toParent := [])
  }

  /** The replies of the processes to a begin: a missing worker is spawned before it is written to. */
  function BeginReplies(l: Link, spawns: bool, delivered: bool): seq<Reply> {
    if l.parent.live then [Acknowledged(delivered)] else [Acknowledged(spawns), Acknowledged(delivered)]
  }

  function Begin(l: Link, stack: W.Stack, spawns: bool, delivered: bool): Link
    requires !l.driving
  {
    var turn := Facing(l.parent, BeginReplies(l, spawns, delivered)).Start();
    if turn.Over? && turn.ran.error.value.CoreFailure? then
      l.(error := turn.ran.error)
    else
      var worker := if l.parent.live then l.worker else Prepared(stack);
      Settled(l.(worker := worker, toWorker := [Ipc.Begin], toParent := [],
                 asked := [], shown := [], given := [], got := []), turn)
  }

  function Respond(l: Link, prompt: nat, response: Text, delivered: bool): Link
    requires !l.driving
  {
    var reply := if InBounds(response) then Acknowledged(delivered) else Broken(Malformed);
    var turn := Facing(l.parent, [reply]).Answer(prompt, response);
    if turn.Over? && turn.ran.error.value.CoreFailure? then
      l.(error := turn.ran.error)
    else if turn.Again? && l.parent.workerPrompt.Some? then
      Settled(l.(toWorker := l.toWorker + [Ipc.Answer(l.parent.workerPrompt.value, response)],
                 given := l.given + [Given(prompt, response)]), turn)
    else
      Settled(l, turn)
  }

  function Cancel(l: Link): Link
    requires !l.driving
  {
    var ran := l.parent.Cancel();
    if ran.error.Some? then l.(error := ran.error) else Settled(l, Over(ran))
  }

  function Receive(l: Link, exits: bool): Link
    requires l.driving && l.toParent != []
  {
    var frame := l.toParent[0];
    var turn := Facing(l.parent, [Arrived(frame), if exits then Done else Broken(BadExitStatus)]).Step();
    var shown := if turn.Over? && turn.ran.backend.conv.Waiting() && frame.PromptFrame?
                 then l.shown + [Shown(l.parent.conv.nextId, CoreKind(frame.kind), frame.message)]
                 else l.shown;
    Settled(l.(toParent := l.toParent[1..], shown := shown), turn)
  }

  function Timeout(l: Link): Link
    requires l.driving
  {
    Settled(l, Facing(l.parent, [Broken(TimedOut)]).Step())
  }

  function Exit(l: Link, outcome: W.Outcome): Link {
    l.(worker := l.worker.(phase := Exited(outcome)), toParent := l.toParent + [outcome.Message()])
  }

  /** The end of a PAM phase: the account phase follows a successful authentication. */
  function Conclude(l: Link, account: bool): Link {
    var stack, failed := l.worker.stack, l.worker.peer.failed;
    if account then
      Exit(l, W.CodeOutcome(stack.acctCode, failed))
    else if stack.authCode == W.Success && !failed then
      l.(worker := l.worker.(phase := Running(stack.acct, true)))
    else
      Exit(l, W.CodeOutcome(stack.authCode, failed))
  }

  function CallBack(l: Link, left: seq<W.Call>, account: bool): Link
    requires left != []
  {
    var peer := l.worker.peer;
    var did := match left[0]
               case Ask(kind, text) => peer.Ask(kind, text)
               case Tell(level, text) => peer.Tell(level, text);
    var phase := match did.awaiting
                 case Some(prompt) => AwaitAnswer(prompt, left[1..], account)
                 case None => Running(left[1..], account);
    var asked := if left[0].Ask? && did.written.Some? then l.asked + [did.written.value] else l.asked;
    l.(worker := l.worker.(phase := phase, peer := did.peer), asked := asked,
       toParent := if did.written.Some? then l.toParent + [did.written.value] else l.toParent)
  }

  function TakeBegin(l: Link): Link
    requires l.toWorker != []
  {
    var peer := l.worker.peer.Count();
    var heard := l.(toWorker := l.toWorker[1..], worker := l.worker.(peer := peer));
    if l.toWorker[0].Begin? && !peer.OverBudget() then
      heard.(worker := heard.worker.(phase := Running(l.worker.stack.auth, false)))
    else
      Exit(heard, W.Fatal)
  }

  function TakeAnswer(l: Link): Link
    requires l.worker.phase.AwaitAnswer? && l.toWorker != []
  {
    var AwaitAnswer(prompt, left, account) := l.worker.phase;
    var (peer, answer) := l.worker.peer.Accept(prompt, Ipc.Ok(l.toWorker[0]));
    l.(toWorker := l.toWorker[1..],
       worker := l.worker.(peer := peer, phase := Running(left, account)),
       got := if answer.Some? then l.got + [answer.value] else l.got)
  }

  predicate WorkerCanMove(l: Link) {
    match l.worker.phase
    case AwaitBegin => l.toWorker != []
    case Running(_, _) => true
    case AwaitAnswer(_, _, _) => l.toWorker != []
    case Exited(_) => false
    case Gone => false
  }

  function WorkerStep(l: Link): Link
    requires WorkerCanMove(l)
  {
    match l.worker.phase
    case AwaitBegin => TakeBegin(l)
    case AwaitAnswer(_, _, _) => TakeAnswer(l)
    case Running(left, account) => if left == [] then Conclude(l, account) else CallBack(l, left, account)
  }

  /** One step of the system; a step that is not enabled changes nothing. */
  function Next(l: Link, move: Move): Link {
    match move
    case UserBegin(stack, spawns, delivered) => if l.driving then l else Begin(l, stack, spawns, delivered)
    case UserRespond(prompt, response, delivered) => if l.driving then l else Respond(l, prompt, response, delivered)
    case UserCancel => if l.driving then l else Cancel(l)
    case ParentReceive(exits) => if l.driving && l.toParent != [] then Receive(l, exits) else l
    case ParentTimeout => if l.driving then Timeout(l) else l
    case WorkerMove => if WorkerCanMove(l) then WorkerStep(l) else l
  }

  function Run(l: Link, moves: seq<Move>): Link
    decreases |moves|
  {
    if moves == [] then l else Run(Next(l, moves[0]), moves[1..])
  }

  function Start(user: Text, stack: W.Stack): Link {
    Link(Connected(user, []), false, None, Prepared(stack), [], [], [], [], [], [])
  }

  // ---------------------------------------------------------------------------
  // The invariant

  /** A channel to the parent: messages, then possibly one prompt, then possibly the final frame. */
  ghost predicate Carries(q: seq<Ipc.WorkerMessage>, pending: Option<Ipc.WorkerMessage>, exited: bool) {
    var n := |q| - (if exited then 1 else 0) - (if pending.Some? then 1 else 0);
    && n >= 0
    && (forall i :: 0 <= i < n ==> q[i].MessageFrame?)
    && (pending.Some? ==> q[n] == pending.value)
  }

  /** The frames the worker has sent in this transaction, not counting its final one. */
  function Sent(l: Link): int {
    l.parent.received + |l.toParent| - (if l.worker.phase.Exited? then 1 else 0)
  }

  function Pending(l: Link): Option<Ipc.WorkerMessage> {
    if |l.asked| > |l.shown| then Some(l.asked[|l.asked| - 1]) else None
  }

  /** The histories agree: the k-th answer PAM got is the k-th given, and the k-th prompt shown is the k-th asked. */
  ghost predicate Histories(l: Link) {
    match l
    case Link(_, _, _, _, _, _, asked, shown, given, got) =>
    && |got| <= |given| <= |shown| <= |asked| <= |shown| + 1
    && (forall k :: 0 <= k < |asked| ==> asked[k].PromptFrame? && asked[k].prompt == k + 1)
    && (forall k :: 0 <= k < |got| ==> got[k] == given[k].response)
    && (forall k :: 0 <= k < |given| ==> given[k].id == shown[k].id)
    && (forall k :: 0 <= k < |shown| ==>
          shown[k] == Shown(shown[0].id + k, CoreKind(asked[k].kind), asked[k].message))
  }

  /** Who waits for whom while a transaction is open and its worker has taken the begin. */
  ghost predicate InTransaction(l: Link) {
    match l
    case Link(parent, driving, _, Worker(stack, phase, peer), toWorker, toParent, asked, shown, given, got) =>
    && Carries(toParent, Pending(l), phase.Exited?)
    && Sent(l) + 2 <= peer.frames && Sent(l) <= 126
    && (!peer.failed ==> peer.frames <= Ipc.MAX_TRANSACTION_FRAMES && peer.nextPrompt == |asked| + 1)
    && (shown != [] ==> shown[0].id + |shown| == parent.conv.nextId)
    && (driving <==> |given| == |shown|)
    && (!driving ==> parent.conv.Waiting() && |given| + 1 == |shown| == |asked|)
    && (!driving ==> parent.workerPrompt == Some(|asked|) && parent.conv.active == Some(shown[|shown| - 1].id))
    && (phase.AwaitAnswer? ==>
          && !peer.failed && phase.prompt == |asked| == |got| + 1
          && toWorker == if driving && |asked| == |shown| then [Ipc.Answer(phase.prompt, given[|given| - 1].response)] else [])
    && (!phase.AwaitAnswer? && !peer.failed ==> driving && toWorker == [] && |asked| == |shown| == |got|)
    && (forall k :: 0 <= k < |given| ==> InBounds(given[k].response))
    && (phase.Exited? ==>
          && toParent[|toParent| - 1] == phase.outcome.Message()
          && (phase.outcome.Authenticated? ==>
                !peer.failed && stack.authCode == W.Success && stack.acctCode == W.Success))
    && ((phase.Running? || phase.AwaitAnswer?) && phase.account ==> stack.authCode == W.Success)
  }

  ghost predicate Inv(l: Link) {
    match l
    case Link(parent, driving, error, Worker(stack, phase, peer), toWorker, toParent, asked, shown, given, got) =>
    && (if driving then parent.Driving() && error == None else parent.Inv())
    && parent.received <= 127
    && Histories(l)
    && (parent.live <==> phase != Gone)
    && (phase.Gone? ==> !driving)
    && (parent.live && !driving && !parent.conv.Waiting() ==>
          l.worker == Prepared(stack) && toWorker == [] && toParent == [])
    && (phase.AwaitBegin? ==>
          && l.worker == Prepared(stack) && toParent == []
          && (driving || !parent.conv.Waiting())
          && (driving ==> toWorker == [Ipc.Begin] && parent.received == 0 && asked == [] && shown == []))
    && (parent.live && !phase.AwaitBegin? ==> InTransaction(l))
    && (parent.conv.state.Authenticated? ==> stack.authCode == W.Success && stack.acctCode == W.Success)
  }

  // ---------------------------------------------------------------------------
  // The worker's steps

  lemma TakeBeginKeeps(l: Link)
    requires Inv(l) && l.worker.phase.AwaitBegin? && l.toWorker != []
    ensures Inv(TakeBegin(l))
  {
  }

  lemma TakeAnswerKeeps(l: Link)
    requires Inv(l) && l.worker.phase.AwaitAnswer? && l.toWorker != []
    ensures Inv(TakeAnswer(l))
  {
    assert TakeAnswer(l).got == l.got + [l.given[|l.given| - 1].response];
    assert TakeAnswer(l).toWorker == [];
  }

  lemma CarriesMore(q: seq<Ipc.WorkerMessage>, message: Ipc.WorkerMessage)
    requires Carries(q, None, false)
    ensures message.MessageFrame? ==> Carries(q + [message], None, false)
    ensures Carries(q + [message], Some(message), false)
  {
  }

  lemma CarriesEnd(q: seq<Ipc.WorkerMessage>, pending: Option<Ipc.WorkerMessage>, message: Ipc.WorkerMessage)
    requires Carries(q, pending, false)
    ensures Carries(q + [message], pending, true)
  {
  }

  lemma ExitKeeps(l: Link, outcome: W.Outcome)
    requires Inv(l) && l.worker.phase.Running?
    requires outcome.Authenticated? ==>
               !l.worker.peer.failed && l.worker.stack.authCode == W.Success && l.worker.stack.acctCode == W.Success
    ensures Inv(Exit(l, outcome))
  {
    CarriesEnd(l.toParent, Pending(l), outcome.Message());
  }

  lemma ConcludeKeeps(l: Link)
    requires Inv(l) && l.worker.phase.Running?
    ensures Inv(Conclude(l, l.worker.phase.account))
  {
    var account, failed := l.worker.phase.account, l.worker.peer.failed;
    var code := if account then l.worker.stack.acctCode else l.worker.stack.authCode;
    if account || code != W.Success || failed {
      ExitKeeps(l, W.CodeOutcome(code, failed));
    }
  }

  /** The state after a callback that asks or tells, and after one that wrote nothing. */
  function AfterCall(l: Link, left: seq<W.Call>, did: W.Did): Link
    requires l.worker.phase.Running?
  {
    var account := l.worker.phase.account;
    l.(worker := l.worker.(peer := did.peer,
                           phase := match did.awaiting
                                    case Some(prompt) => AwaitAnswer(prompt, left, account)
                                    case None => Running(left, account)),
       toParent := if did.written.Some? then l.toParent + [did.written.value] else l.toParent)
  }

  lemma SilentKeeps(l: Link, left: seq<W.Call>, did: W.Did)
    requires Inv(l) && l.worker.phase.Running? && did.written.None? && did.awaiting.None?
    requires did.peer == l.worker.peer || (did.peer.failed && did.peer.frames >= l.worker.peer.frames)
    ensures Inv(AfterCall(l, left, did))
  {
  }

  /** A prompt callback either writes the next prompt, and waits for its answer within the budget, or writes nothing. */
  ghost predicate Asks(peer: W.Peer, did: W.Did) {
    match did.written
    case Some(frame) =>
      && !peer.failed && frame.PromptFrame? && frame.prompt == peer.nextPrompt
      && did.peer.frames == peer.frames + 2 && peer.frames + 1 <= Ipc.MAX_TRANSACTION_FRAMES
      && did.peer.nextPrompt == peer.nextPrompt + 1
      && (if did.peer.failed then did.awaiting.None?
          else did.awaiting == Some(peer.nextPrompt) && did.peer.frames <= Ipc.MAX_TRANSACTION_FRAMES)
    case None =>
      did.awaiting.None? && (did.peer == peer || (did.peer.failed && did.peer.frames >= peer.frames))
  }

  lemma AskAsks(peer: W.Peer, kind: Ipc.WorkerPromptKind, text: Text)
    ensures Asks(peer, peer.Ask(kind, text))
  {
  }

  lemma AskKeeps(l: Link)
    requires Inv(l) && l.worker.phase.Running? && l.worker.phase.left != [] && l.worker.phase.left[0].Ask?
    ensures Inv(CallBack(l, l.worker.phase.left, l.worker.phase.account))
  {
    var Running(left, account) := l.worker.phase;
    var did := l.worker.peer.Ask(left[0].kind, left[0].text);
    AskAsks(l.worker.peer, left[0].kind, left[0].text);
    AskedKeeps(l, left[1..], did);
    AskedIsAfterCall(l, did);
  }

  /** The state after a prompt callback, which remembers the prompt it wrote. */
  function AfterAsk(l: Link, left: seq<W.Call>, did: W.Did): Link
    requires l.worker.phase.Running?
  {
    AfterCall(l, left, did).(asked := if did.written.Some? then l.asked + [did.written.value] else l.asked)
  }

  lemma AskedIsAfterCall(l: Link, did: W.Did)
    requires l.worker.phase.Running? && l.worker.phase.left != [] && l.worker.phase.left[0].Ask?
    requires did == l.worker.peer.Ask(l.worker.phase.left[0].kind, l.worker.phase.left[0].text)
    ensures CallBack(l, l.worker.phase.left, l.worker.phase.account) == AfterAsk(l, l.worker.phase.left[1..], did)
  {
  }

  lemma AskedKeeps(l: Link, left: seq<W.Call>, did: W.Did)
    requires Inv(l) && l.worker.phase.Running? && Asks(l.worker.peer, did)
    ensures Inv(AfterAsk(l, left, did))
  {
    if did.written.Some? {
      CarriesMore(l.toParent, did.written.value);
      AskSent(l, left, did);
    } else {
      SilentKeeps(l, left, did);
    }
  }

  lemma AskSent(l: Link, left: seq<W.Call>, did: W.Did)
    requires Inv(l) && l.worker.phase.Running? && Asks(l.worker.peer, did) && did.written.Some?
    requires Carries(l.toParent + [did.written.value], did.written, false)
    ensures Inv(AfterAsk(l, left, did))
  {
  }

  lemma TellKeeps(l: Link)
    requires Inv(l) && l.worker.phase.Running? && l.worker.phase.left != [] && l.worker.phase.left[0].Tell?
    ensures Inv(CallBack(l, l.worker.phase.left, l.worker.phase.account))
  {
    var Running(left, account) := l.worker.phase;
    var did := l.worker.peer.Tell(left[0].level, left[0].text);
    assert CallBack(l, left, account) == AfterCall(l, left[1..], did);
    if did.written.Some? {
      CarriesMore(l.toParent, did.written.value);
      TellSent(l, left[1..], did);
    } else {
      SilentKeeps(l, left[1..], did);
    }
  }

  lemma TellSent(l: Link, left: seq<W.Call>, did: W.Did)
    requires Inv(l) && l.worker.phase.Running? && !l.worker.peer.failed
    requires did.written.Some? && did.awaiting.None? && did.peer == l.worker.peer.Count() && !did.peer.OverBudget()
    requires Carries(l.toParent + [did.written.value], None, false)
    ensures Inv(AfterCall(l, left, did))
  {
  }

  lemma WorkerStepKeeps(l: Link)
    requires Inv(l) && WorkerCanMove(l)
    ensures Inv(WorkerStep(l))
  {
    match l.worker.phase
    case AwaitBegin => TakeBeginKeeps(l);
    case AwaitAnswer(_, _, _) => TakeAnswerKeeps(l);
    case Running(left, _) =>
      if left == [] {
        ConcludeKeeps(l);
      } else if left[0].Ask? {
        AskKeeps(l);
      } else {
        TellKeeps(l);
      }
  }

  // ---------------------------------------------------------------------------
  // The parent's steps

  lemma GoneKeeps(l: Link, ran: Ran)
    requires Histories(l)
    requires ran.backend.Inv() && !ran.backend.live && ran.backend.received <= 127
    requires ran.backend.conv.state.Authenticated? ==>
               l.worker.stack.authCode == W.Success && l.worker.stack.acctCode == W.Success
    ensures Inv(Settled(l, Over(ran)))
  {
  }

  /** The backend answering a frame, and a worker exit that goes well or not. */
  function Heard(l: Link, exits: bool): Backend
    requires l.toParent != []
  {
    Facing(l.parent, [Arrived(l.toParent[0]), if exits then Done else Broken(BadExitStatus)])
  }

  /** A message frame keeps the parent receiving. */
  lemma MessageIsHeard(l: Link, exits: bool)
    requires Inv(l) && l.driving && l.toParent != [] && l.toParent[0].MessageFrame?
    ensures var turn := Heard(l, exits).Step();
      && turn.Again? && turn.backend.Driving()
      && turn.backend.received == l.parent.received + 1
      && turn.backend.conv.nextId == l.parent.conv.nextId
  {
    StepKeeps(Heard(l, exits));
  }

  lemma MessageTaken(l: Link, next: Backend)
    requires Inv(l) && l.driving && l.toParent != [] && l.toParent[0].MessageFrame?
    requires next.Driving() && next.received == l.parent.received + 1 && next.conv.nextId == l.parent.conv.nextId
    ensures Inv(l.(parent := next, driving := true, error := None, toParent := l.toParent[1..]))
  {
  }

  lemma ReceiveMessageKeeps(l: Link, exits: bool)
    requires Inv(l) && l.driving && l.toParent != [] && l.toParent[0].MessageFrame?
    ensures Inv(Receive(l, exits)) && Receive(l, exits).error == None
  {
    MessageIsHeard(l, exits);
    MessageTaken(l, Heard(l, exits).Step().backend);
  }

  /** A shown prompt puts the parent to rest, waiting for the user on the newest asked prompt. */
  lemma ShownKeeps(l: Link, after: Backend)
    requires Inv(l) && l.driving && l.toParent != [] && l.toParent[0].PromptFrame?
    requires after.Inv() && after.live && after.conv.Waiting()
    requires after.workerPrompt == Some(l.toParent[0].prompt) && after.received == l.parent.received + 1
    requires after.conv.active == Some(l.parent.conv.nextId) && after.conv.nextId == l.parent.conv.nextId + 1
    ensures Inv(l.(parent := after, driving := false, toParent := l.toParent[1..],
                   shown := l.shown + [Shown(l.parent.conv.nextId, CoreKind(l.toParent[0].kind), l.toParent[0].message)]))
  {
    assert Pending(l) == Some(l.toParent[0]);
  }

  lemma ReceivePromptKeeps(l: Link, exits: bool)
    requires Inv(l) && l.driving && l.toParent != [] && l.toParent[0].PromptFrame?
    requires l.parent.conv.nextId < U64_MAX
    ensures Inv(Receive(l, exits)) && Receive(l, exits).error == None
  {
    StepKeeps(Heard(l, exits));
    ShownKeeps(l, Heard(l, exits).Step().ran.backend);
  }

  lemma ReceiveExhaustedKeeps(l: Link, exits: bool)
    requires Inv(l) && l.driving && l.toParent != [] && l.toParent[0].PromptFrame?
    requires l.parent.conv.nextId >= U64_MAX
    ensures Inv(Receive(l, exits)) && Receive(l, exits).error == Some(Protocol)
  {
    StepKeeps(Heard(l, exits));
    GoneKeeps(l.(toParent := l.toParent[1..]), Heard(l, exits).Step().ran);
  }

  lemma EndIsOutcome(l: Link)
    requires Inv(l) && l.driving && l.toParent != []
    requires !l.toParent[0].PromptFrame? && !l.toParent[0].MessageFrame?
    ensures l.worker.phase.Exited? && l.toParent == [l.worker.phase.outcome.Message()]
  {
  }

  lemma ReceiveEndKeeps(l: Link, exits: bool)
    requires Inv(l) && l.driving && l.toParent != []
    requires !l.toParent[0].PromptFrame? && !l.toParent[0].MessageFrame?
    ensures Inv(Receive(l, exits)) && Receive(l, exits).error != Some(Protocol)
  {
    EndIsOutcome(l);
    StepKeeps(Heard(l, exits));
    var ran := Heard(l, exits).Step().ran;
    assert ran.error != Some(Protocol);
    GoneKeeps(l.(toParent := l.toParent[1..]), ran);
  }

  lemma TimeoutKeeps(l: Link)
    requires Inv(l) && l.driving
    ensures Inv(Next(l, ParentTimeout)) && Next(l, ParentTimeout).error != Some(Protocol)
  {
    var b := Facing(l.parent, [Broken(TimedOut)]);
    StepKeeps(b);
    GoneKeeps(l, b.Step().ran);
  }

  lemma BeginDelivered(l: Link, stack: W.Stack)
    requires Inv(l) && !l.driving && l.parent.conv.Begin().error.None?
    ensures Inv(Begin(l, stack, true, true)) && Begin(l, stack, true, true).error == None
  {
    var b := Facing(l.parent, BeginReplies(l, true, true));
    StartKeeps(b);
    assert b.Start().Again?;
  }

  lemma BeginLost(l: Link, stack: W.Stack, spawns: bool, delivered: bool)
    requires Inv(l) && !l.driving && l.parent.conv.Begin().error.None?
    requires !delivered || (!spawns && !l.parent.live)
    ensures Inv(Begin(l, stack, spawns, delivered))
    ensures Begin(l, stack, spawns, delivered).error == Some(Unavailable)
  {
    var b := Facing(l.parent, BeginReplies(l, spawns, delivered));
    StartKeeps(b);
    var worker := if l.parent.live then l.worker else Prepared(stack);
    GoneKeeps(l.(worker := worker, asked := [], shown := [], given := [], got := []), b.Start().ran);
  }

  lemma LinkBeginKeeps(l: Link, stack: W.Stack, spawns: bool, delivered: bool)
    requires Inv(l) && !l.driving
    ensures Inv(Begin(l, stack, spawns, delivered)) && Begin(l, stack, spawns, delivered).error != Some(Protocol)
  {
    if l.parent.conv.Begin().error.None? {
      if delivered && (spawns || l.parent.live) {
        assert BeginReplies(l, spawns, delivered) == BeginReplies(l, true, true);
        BeginDelivered(l, stack);
      } else {
        BeginLost(l, stack, spawns, delivered);
      }
    }
  }

  /** A delivered answer joins the prompt the worker waits on. */
  lemma DeliveredKeeps(l: Link, next: Backend, response: Text)
    requires Inv(l) && !l.driving && l.parent.conv.Waiting() && InBounds(response)
    requires next.Driving() && next.received == l.parent.received && next.conv.nextId == l.parent.conv.nextId
    ensures Inv(l.(parent := next, driving := true, error := None,
                   toWorker := l.toWorker + [Ipc.Answer(l.parent.workerPrompt.value, response)],
                   given := l.given + [Given(l.parent.conv.active.value, response)]))
  {
  }

  lemma RespondDelivered(l: Link, prompt: nat, response: Text)
    requires Inv(l) && !l.driving && l.parent.conv.BeginResponse(prompt).error.None? && InBounds(response)
    ensures Inv(Respond(l, prompt, response, true)) && Respond(l, prompt, response, true).error == None
  {
    var b := Facing(l.parent, [Done]);
    AnswerKeeps(b, prompt, response);
    assert b.Answer(prompt, response).Again?;
    DeliveredKeeps(l, b.Answer(prompt, response).backend, response);
  }

  lemma RespondLost(l: Link, prompt: nat, response: Text, delivered: bool)
    requires Inv(l) && !l.driving && l.parent.conv.BeginResponse(prompt).error.None?
    requires !delivered || !InBounds(response)
    ensures Inv(Respond(l, prompt, response, delivered))
    ensures Respond(l, prompt, response, delivered).error == Some(if InBounds(response) then Unavailable else Protocol)
  {
    var b := Facing(l.parent, [if InBounds(response) then Broken(Lost) else Broken(Malformed)]);
    AnswerKeeps(b, prompt, response);
    GoneKeeps(l, b.Answer(prompt, response).ran);
  }

  lemma LinkRespondKeeps(l: Link, prompt: nat, response: Text, delivered: bool)
    requires Inv(l) && !l.driving
    ensures Inv(Respond(l, prompt, response, delivered))
    ensures InBounds(response) ==> Respond(l, prompt, response, delivered).error != Some(Protocol)
  {
    if l.parent.conv.BeginResponse(prompt).error.None? {
      if delivered && InBounds(response) {
        RespondDelivered(l, prompt, response);
      } else {
        RespondLost(l, prompt, response, delivered);
      }
    }
  }

  lemma LinkCancelKeeps(l: Link)
    requires Inv(l) && !l.driving
    ensures Inv(Cancel(l)) && Cancel(l).error != Some(Protocol)
  {
    CancelKeeps(l.parent);
  }

  // ---------------------------------------------------------------------------
  // Whole runs

  predicate Bounded(move: Move) {
    move.UserRespond? ==> InBounds(move.response)
  }

  lemma ReceiveKeeps(l: Link, exits: bool)
    requires Inv(l) && l.driving && l.toParent != []
    ensures Inv(Receive(l, exits))
    ensures l.parent.conv.nextId < U64_MAX ==> Receive(l, exits).error != Some(Protocol)
  {
    if l.toParent[0].MessageFrame? {
      ReceiveMessageKeeps(l, exits);
    } else if !l.toParent[0].PromptFrame? {
      ReceiveEndKeeps(l, exits);
    } else if l.parent.conv.nextId < U64_MAX {
      ReceivePromptKeeps(l, exits);
    } else {
      ReceiveExhaustedKeeps(l, exits);
    }
  }

  /** After a step the invariant holds, and a step within bounds has not reported a protocol error. */
  ghost predicate Kept(l: Link, move: Move, after: Link) {
    && Inv(after)
    && (Bounded(move) && l.parent.conv.nextId < U64_MAX && l.error != Some(Protocol) ==> after.error != Some(Protocol))
  }

  lemma UserMoveKeeps(l: Link, move: Move)
    requires Inv(l) && (move.UserBegin? || move.UserRespond? || move.UserCancel?)
    ensures Kept(l, move, Next(l, move))
  {
    if !l.driving {
      match move
      case UserBegin(stack, spawns, delivered) => LinkBeginKeeps(l, stack, spawns, delivered);
      case UserRespond(prompt, response, delivered) => LinkRespondKeeps(l, prompt, response, delivered);
      case UserCancel => LinkCancelKeeps(l);
    }
  }

  lemma ParentMoveKeeps(l: Link, move: Move)
    requires Inv(l) && (move.ParentReceive? || move.ParentTimeout?)
    ensures Kept(l, move, Next(l, move))
  {
    match move
    case ParentTimeout => if l.driving { TimeoutKeeps(l); }
    case ParentReceive(exits) => if l.driving && l.toParent != [] { ReceiveKeeps(l, exits); }
  }

  lemma WorkerMoveKeeps(l: Link)
    requires Inv(l)
    ensures Kept(l, WorkerMove, Next(l, WorkerMove))
  {
    if WorkerCanMove(l) {
      WorkerStepKeeps(l);
      WorkerReportsNothing(l);
    }
  }

  lemma WorkerReportsNothing(l: Link)
    requires WorkerCanMove(l)
    ensures WorkerStep(l).error == l.error
  {
  }

  /** Every step keeps the invariant, and no step ends an operation with a protocol error. */
  lemma NextKeeps(l: Link, move: Move)
    requires Inv(l)
    ensures Kept(l, move, Next(l, move))
  {
    if move.WorkerMove? {
      WorkerMoveKeeps(l);
    } else if move.ParentReceive? || move.ParentTimeout? {
      ParentMoveKeeps(l, move);
    } else {
      UserMoveKeeps(l, move);
    }
  }

  lemma StepGrows(b: Backend)
    requires b.Driving()
    ensures match b.Step()
            case Again(next) => b.conv.nextId <= next.conv.nextId
            case Over(ran) => b.conv.nextId <= ran.backend.conv.nextId
  {
    StepKeeps(b);
  }

  lemma DrivenGrows(l: Link, move: Move)
    requires Inv(l) && l.driving && (move.ParentReceive? || move.ParentTimeout?)
    ensures l.parent.conv.nextId <= Next(l, move).parent.conv.nextId
  {
    if move.ParentTimeout? {
      StepGrows(Facing(l.parent, [Broken(TimedOut)]));
    } else if l.toParent != [] {
      StepGrows(Heard(l, move.exits));
    }
  }

  lemma BeginGrows(l: Link, stack: W.Stack, spawns: bool, delivered: bool)
    requires !l.driving
    ensures l.parent.conv.nextId <= Begin(l, stack, spawns, delivered).parent.conv.nextId
  {
  }

  lemma RespondGrows(l: Link, prompt: nat, response: Text, delivered: bool)
    requires !l.driving
    ensures l.parent.conv.nextId <= Respond(l, prompt, response, delivered).parent.conv.nextId
  {
  }

  lemma CancelGrows(l: Link)
    requires !l.driving
    ensures l.parent.conv.nextId <= Cancel(l).parent.conv.nextId
  {
  }

  lemma UserGrows(l: Link, move: Move)
    requires !l.driving && (move.UserBegin? || move.UserRespond? || move.UserCancel?)
    ensures l.parent.conv.nextId <= Next(l, move).parent.conv.nextId
  {
    match move
    case UserBegin(stack, spawns, delivered) => BeginGrows(l, stack, spawns, delivered);
    case UserRespond(prompt, response, delivered) => RespondGrows(l, prompt, response, delivered);
    case UserCancel => CancelGrows(l);
  }

  lemma WorkerGrows(l: Link)
    requires Inv(l)
    ensures Next(l, WorkerMove).parent.conv.nextId == l.parent.conv.nextId
  {
  }

  lemma NextIdGrows(l: Link, move: Move)
    requires Inv(l)
    ensures l.parent.conv.nextId <= Next(l, move).parent.conv.nextId
  {
    if move.WorkerMove? {
      WorkerGrows(l);
    } else if move.ParentReceive? || move.ParentTimeout? {
      if l.driving {
        DrivenGrows(l, move);
      }
    } else if !l.driving {
      UserGrows(l, move);
    }
  }

  lemma {:induction false} RunKeeps(l: Link, moves: seq<Move>)
    requires Inv(l)
    requires forall move :: move in moves ==> Bounded(move)
    ensures Inv(Run(l, moves)) && l.parent.conv.nextId <= Run(l, moves).parent.conv.nextId
    ensures Run(l, moves).parent.conv.nextId < U64_MAX && l.error != Some(Protocol)
            ==> Run(l, moves).error != Some(Protocol)
    decreases |moves|
  {
    if moves != [] {
      NextKeeps(l, moves[0]);
      NextIdGrows(l, moves[0]);
      RunKeeps(Next(l, moves[0]), moves[1..]);
    }
  }

  /**
   * The composed protocol, for every PAM stack, every user whose answers are within bounds, every
   * interleaving and every loss: the k-th answer PAM got is the answer given to the core prompt
   * shown for its k-th prompt, a receiving parent with an empty channel faces a worker that can
   * move, the parent stays within 127 frames and never reports a protocol error before its prompt
   * identifiers run out, and it reports success only if both PAM phases succeeded.
   */
  lemma LinkIsSafe(user: Text, stack: W.Stack, moves: seq<Move>)
    requires user != []
    requires forall move :: move in moves ==> Bounded(move)
    ensures var l := Run(Start(user, stack), moves);
      && |l.got| <= |l.given| <= |l.shown| <= |l.asked|
      && (forall k :: 0 <= k < |l.got| ==> l.got[k] == l.given[k].response)
      && (forall k :: 0 <= k < |l.given| ==> l.given[k].id == l.shown[k].id)
      && (forall k :: 0 <= k < |l.shown| ==>
            l.asked[k].PromptFrame? && l.shown[k] == Shown(l.shown[0].id + k, CoreKind(l.asked[k].kind), l.asked[k].message))
      && (l.driving && l.toParent == [] ==> WorkerCanMove(l))
      && l.parent.received <= 127
      && (l.parent.conv.nextId < U64_MAX ==> l.error != Some(Protocol))
      && (l.parent.conv.state.Authenticated? ==>
            l.worker.stack.authCode == W.Success && l.worker.stack.acctCode == W.Success)
  {
    ConnectedIsSettled(user, []);
    RunKeeps(Start(user, stack), moves);
  }

  // ---------------------------------------------------------------------------
  // The channels as byte streams

  /** Every message on its way is one that the codec writes. */
  ghost predicate Writable(l: Link) {
    && (forall i :: 0 <= i < |l.toWorker| ==> Ipc.WriteParent(l.toWorker[i]).Ok?)
    && (forall i :: 0 <= i < |l.toParent| ==> Ipc.WriteWorker(l.toParent[i]).Ok?)
  }

  lemma WorkerWrites(l: Link)
    requires WorkerCanMove(l) && Writable(l)
    ensures Writable(WorkerStep(l))
  {
  }

  lemma ReceiveWrites(l: Link, exits: bool)
    requires l.driving && l.toParent != [] && Writable(l)
    ensures Writable(Receive(l, exits))
  {
  }

  lemma ParentWrites(l: Link, move: Move)
    requires !move.WorkerMove? && !move.UserRespond? && !move.ParentReceive? && Writable(l)
    ensures Writable(Next(l, move))
  {
  }

  lemma RespondWrites(l: Link, prompt: nat, response: Text, delivered: bool)
    requires !l.driving && Writable(l)
    ensures Writable(Respond(l, prompt, response, delivered))
  {
  }

  lemma {:induction false} RunWrites(l: Link, moves: seq<Move>)
    requires Writable(l)
    ensures Writable(Run(l, moves))
    decreases |moves|
  {
    if moves != [] {
      match moves[0] {
        case WorkerMove => if WorkerCanMove(l) { WorkerWrites(l); }
        case UserRespond(prompt, response, delivered) => if !l.driving { RespondWrites(l, prompt, response, delivered); }
        case ParentReceive(exits) => if l.driving && l.toParent != [] { ReceiveWrites(l, exits); }
        case _ => ParentWrites(l, moves[0]);
      }
      RunWrites(Next(l, moves[0]), moves[1..]);
    }
  }

  /**
   * After any run each channel is one byte stream: it decodes to exactly the messages on their way, no
   * other stream does, and the next read takes the oldest message and leaves the stream of the rest.
   */
  lemma ChannelsAreStreams(user: Text, stack: W.Stack, moves: seq<Move>)
    ensures var l := Run(Start(user, stack), moves);
      && (match Ipc.WriteParents(l.toWorker)
          case Ok(bytes) =>
            && (forall stream :: Ipc.ReadParents(stream) == Ipc.Ok(l.toWorker) <==> stream == bytes)
            && (l.toWorker != [] ==> exists rest :: Ipc.WriteParents(l.toWorker[1..]) == Ipc.Ok(rest)
                                                    && Ipc.ReadParent(bytes) == Ipc.Ok(Ipc.Item(l.toWorker[0], rest)))
          case Err(_) => false)
      && (match Ipc.WriteWorkers(l.toParent)
          case Ok(bytes) =>
            && (forall stream :: Ipc.ReadWorkers(stream) == Ipc.Ok(l.toParent) <==> stream == bytes)
            && (l.toParent != [] ==> exists rest :: Ipc.WriteWorkers(l.toParent[1..]) == Ipc.Ok(rest)
                                                    && Ipc.ReadWorker(bytes) == Ipc.Ok(Ipc.Item(l.toParent[0], rest)))
          case Err(_) => false)
  {
    RunWrites(Start(user, stack), moves);
    var l := Run(Start(user, stack), moves);
    Ipc.ParentQueue(l.toWorker);
    Ipc.WorkerQueue(l.toParent);
    forall stream ensures Ipc.ReadParents(stream) == Ipc.Ok(l.toWorker) <==> Ipc.WriteParents(l.toWorker) == Ipc.Ok(stream) {
      Ipc.ParentStreams(l.toWorker, stream);
    }
    forall stream ensures Ipc.ReadWorkers(stream) == Ipc.Ok(l.toParent) <==> Ipc.WriteWorkers(l.toParent) == Ipc.Ok(stream) {
      Ipc.WorkerStreams(l.toParent, stream);
    }
  }

  /** The exceptions are real: an answer over its bound does end in a protocol error. */
  lemma OversizedAnswerIsProtocolError(l: Link, response: Text)
    requires Inv(l) && !l.driving && l.parent.conv.Waiting() && !InBounds(response)
    ensures Next(l, UserRespond(l.parent.conv.active.value, response, true)).error == Some(Protocol)
  {
    RespondLost(l, l.parent.conv.active.value, response, true);
  }
}

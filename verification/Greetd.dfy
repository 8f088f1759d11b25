/** The greetd login client: one request at a time over an arbitrary server (fomalhaut-greetd, client.rs). */
module Greetd {
  import opened Prelude
  import opened Core

  datatype Request =
    | CreateSession(username: Text)
    | PostResponse(answer: Option<Text>)
    | StartSession(command: Text)
    | CancelSession

  datatype MessageType = SecretMessage | VisibleMessage | InfoMessage | ErrorMessage

  datatype Response =
    | Success
    | Failure(authentication: bool)
    | AuthMessage(kind: MessageType, text: Text)

  /** One exchange on the wire; None stands for a transport failure. */
  datatype Exchange = Exchange(request: Request, response: Option<Response>)

  datatype GreetdError =
    | CoreRefusal(core: CoreError)
    | Transport
    | UnexpectedResponse
    | Server(authentication: bool)
    | MissingIdentity

  datatype Purpose = Authenticate | Start | Cancel | Cleanup

  /** Everything the server will still answer, and every exchange so far. */
  datatype Wire = Wire(script: seq<Response>, log: seq<Exchange>) {
    function Response(): Option<Response> {
      if script == [] then None else Some(script[0])
    }

    function Exchanged(request: Request): Wire {
      Wire(if script == [] then [] else script[1..], log + [Exchange(request, Response())])
    }
  }

  function Reported(error: Option<CoreError>): Option<GreetdError> {
    match error
    case None => None
    case Some(core) => Some(CoreRefusal(core))
  }

  /** What a controller sees of a client error. */
  function AsBackendError(error: GreetdError): BackendError {
    match error
    case CoreRefusal(core) => CoreFailure(core)
    case Transport => Unavailable
    case UnexpectedResponse => Protocol
    case MissingIdentity => Protocol
    case Server(_) => Service
  }

  datatype Ran = Ran(client: Client, error: Option<GreetdError>)

  /** What a response leads to: another request of the same operation, or its end. */
  datatype Turn = Again(client: Client, request: Request, purpose: Purpose) | Over(ran: Ran)

  /** The abstract value of a `GreeterClient`. */
  datatype Client = Client(conv: Conversation, pending: Option<Text>, starting: bool, started: bool, wire: Wire) {
    predicate NeedsCancel() {
      !starting && !started && conv.NeedsCancel()
    }

    function Settle(did: Did): Ran {
      Ran(this.(conv := did.conv), Reported(did.error))
    }

    function HandleSuccess(purpose: Purpose): Ran {
      match purpose
      case Authenticate =>
        (match pending
         case None => Ran(this.(conv := conv.Fail()), Some(MissingIdentity))
         case Some(identity) => this.(pending := None).Settle(conv.Succeed(identity)))
      case Start => Ran(this.(starting := false, started := true), None)
      case Cancel => Settle(conv.FinishCancel())
      case Cleanup => Settle(conv.Reject())
    }

    function HandleFailure(authentication: bool, purpose: Purpose): Turn {
      if purpose.Cleanup? then
        Over(Settle(conv.Reject()))
      else if purpose.Authenticate? && authentication then
        var did := conv.BeginCancel();
        if did.error.Some? then
          Over(Settle(did))
        else
          Again(this.(conv := did.conv, pending := None, starting := false), CancelSession, Cleanup)
      else
        Over(Ran(this.(conv := conv.Fail(), pending := None, starting := false), Some(Server(authentication))))
    }

    function HandleMessage(kind: MessageType, text: Text, purpose: Purpose): Turn {
      if !purpose.Authenticate? then
        Over(Ran(this.(conv := conv.Fail(), starting := false), Some(UnexpectedResponse)))
      else
        match kind
        case SecretMessage => Over(Settle(conv.EmitPrompt(Secret, text)))
        case VisibleMessage => Over(Settle(conv.EmitPrompt(Visible, text)))
        case _ =>
          var did := conv.EmitMessage(if kind.InfoMessage? then Info else Error, text);
          if did.error.Some? then Over(Settle(did))
          else Again(this.(conv := did.conv), PostResponse(None), purpose)
    }

    function Disconnected(): Client {
      this.(conv := conv.Disconnect(), pending := None, starting := false)
    }

    /** One exchange and the reaction to its response. */
    function Step(request: Request, purpose: Purpose): Turn {
      var sent := this.(wire := wire.Exchanged(request));
      match wire.Response()
      case None => Over(Ran(sent.Disconnected(), Some(Transport)))
      case Some(Success) => Over(sent.HandleSuccess(purpose))
      case Some(Failure(authentication)) => sent.HandleFailure(authentication, purpose)
      case Some(AuthMessage(kind, text)) => sent.HandleMessage(kind, text, purpose)
    }

    /** The exchange loop: it ends with the operation, at the latest when the server falls silent. */
    function Drive(request: Request, purpose: Purpose): Ran
      decreases |wire.script|
    {
      match Step(request, purpose)
      case Over(ran) => ran
      case Again(next, request', purpose') => next.Drive(request', purpose')
    }

    function Create(username: Text): Ran {
      if username == [] then
        Ran(this, Some(CoreRefusal(EmptyIdentity)))
      else
        var did := conv.Begin();
        if did.error.Some? then
          Ran(this, Reported(did.error))
        else
          this.(conv := did.conv, pending := Some(username), starting := false, started := false)
              .Drive(CreateSession(username), Authenticate)
    }

    function Respond(prompt: nat, answer: Text): Ran {
      var did := conv.BeginResponse(prompt);
      if did.error.Some? then Ran(this, Reported(did.error))
      else this.(conv := did.conv).Drive(PostResponse(Some(answer)), Authenticate)
    }

    function Launch(command: Text): Ran {
      if !conv.state.Authenticated? || starting || started then
        Ran(this, Some(CoreRefusal(InvalidState(StartSessionOp, conv.state))))
      else
        this.(starting := true).Drive(StartSession(command), Start)
    }

    function CancelActive(): Ran {
      if starting || started then
        Ran(this, Some(CoreRefusal(InvalidState(CancelSessionOp, conv.state))))
      else
        var did := conv.BeginCancel();
        if did.error.Some? then Ran(this, Reported(did.error))
        else this.(conv := did.conv, pending := None).Drive(CancelSession, Cancel)
    }

    /** What holds between operations: the state tells which exchange came last. */
    ghost predicate Inv() {
      match this
      case Client(conv, pending, starting, started, Wire(_, log)) =>
      && conv.Sound()
      && !starting
      && Legal(log)
      && (started ==> conv.state.Authenticated?)
      && (pending.Some? <==> conv.state.Authenticating? || conv.Waiting())
      && (pending.Some? ==> pending.value == LastUser(log))
      && Rests(conv, started, log)
      && Attributed(conv.events, LastUser(log))
    }

    /** What holds whenever the exchange loop is about to send a request. */
    ghost predicate Driving(request: Request, purpose: Purpose) {
      match this
      case Client(conv, pending, starting, started, Wire(_, log)) =>
      && conv.Sound()
      && (starting <==> purpose.Start?)
      && !started
      && Legal(log) && MaySend(log, request)
      && Serves(request, purpose)
      && (purpose.Authenticate? ==>
            conv.state.Authenticating? && pending.Some? && pending.value == UserOf(log, request))
      && (!purpose.Authenticate? ==> pending.None?)
      && (purpose.Start? ==> conv.state.Authenticated?)
      && (purpose.Cancel? || purpose.Cleanup? ==> conv.state.Cancelling?)
      && Attributed(conv.events, UserOf(log, request))
    }
  }

  function IdleClient(script: seq<Response>): Client {
    Client(IDLE_CONVERSATION, None, false, false, Wire(script, []))
  }

  /** The requests each kind of operation sends. */
  predicate Serves(request: Request, purpose: Purpose) {
    match purpose
    case Authenticate => request.CreateSession? || request.PostResponse?
    case Start => request.StartSession?
    case Cancel => request.CancelSession?
    case Cleanup => request.CancelSession?
  }

  // ---------------------------------------------------------------------------
  // The protocol a trace must obey

  predicate Authenticates(request: Request) {
    request.CreateSession? || request.PostResponse?
  }

  predicate Prompts(kind: MessageType) {
    kind.SecretMessage? || kind.VisibleMessage?
  }

  /** Whether a request may directly follow an exchange. */
  predicate MayFollow(last: Exchange, request: Request) {
    match last.response
    case None => false
    case Some(Success) =>
      if Authenticates(last.request) then request.StartSession? || request.CancelSession?
      else if last.request.StartSession? then false
      else request.CreateSession?
    case Some(Failure(authentication)) =>
      if Authenticates(last.request) && authentication then request.CancelSession?
      else request.CreateSession?
    case Some(AuthMessage(kind, _)) =>
      if !Authenticates(last.request) then request.CreateSession?
      else if Prompts(kind) then request.CancelSession? || (request.PostResponse? && request.answer.Some?)
      else request == PostResponse(None)
  }

  /** Whether a request may be sent after a trace; a trace opens with a session request. */
  predicate MaySend(log: seq<Exchange>, request: Request) {
    if log == [] then request.CreateSession? else MayFollow(log[|log| - 1], request)
  }

  /** Every request of a trace was allowed when it was sent. */
  ghost predicate Legal(log: seq<Exchange>) {
    log == [] ||
    (Legal(log[..|log| - 1]) && MaySend(log[..|log| - 1], log[|log| - 1].request))
  }

  /** The i-th request of a trace was allowed by the exchange before it. */
  predicate Allowed(log: seq<Exchange>, i: nat)
    requires i < |log|
  {
    if i == 0 then log[0].request.CreateSession? else MayFollow(log[i - 1], log[i].request)
  }

  lemma {:induction false} LegalEverywhere(log: seq<Exchange>, i: nat)
    requires Legal(log) && i < |log|
    ensures Allowed(log, i)
  {
    if i < |log| - 1 {
      LegalEverywhere(log[..|log| - 1], i);
    }
  }

  /** The account of the newest session request. */
  ghost function LastUser(log: seq<Exchange>): Text {
    if log == [] then []
    else if log[|log| - 1].request.CreateSession? then log[|log| - 1].request.username
    else LastUser(log[..|log| - 1])
  }

  /** The account of the newest session request once `request` is sent as well. */
  ghost function UserOf(log: seq<Exchange>, request: Request): Text {
    if request.CreateSession? then request.username else LastUser(log)
  }

  /** Every pending success event names this account. */
  ghost predicate Attributed(events: seq<AuthEvent>, user: Text) {
    forall i :: 0 <= i < |events| && events[i].Succeeded? ==> events[i].identity == user
  }

  /** The exchange a settled conversation came to rest on. */
  ghost predicate Rests(conv: Conversation, started: bool, log: seq<Exchange>) {
    if log == [] then
      conv.state.Idle?
    else
      var last := log[|log| - 1];
      match conv.state
      case Disconnected => last.response == None
      case Idle => last == Exchange(CancelSession, Some(Success))
      case Authenticating | WaitingForSecret | WaitingForVisible =>
        && Authenticates(last.request)
        && last.response.Some? && last.response.value.AuthMessage? && Prompts(last.response.value.kind)
        && (conv.Waiting() ==> (last.response.value.kind.SecretMessage? <==> conv.state.WaitingForSecret?))
        && (conv.state.Authenticating? ==> conv.nextId >= U64_MAX)
      case Authenticated =>
        && last.response == Some(Success)
        && (if started then last.request.StartSession? else Authenticates(last.request))
      case Cancelling => false
      case Failed => last.response.Some? && MayFollow(last, CreateSession([]))
  }

  lemma LastUserSnoc(log: seq<Exchange>, exchange: Exchange)
    ensures LastUser(log + [exchange]) ==
            UserOf(log, exchange.request)
  {
    assert (log + [exchange])[..|log|] == log;
  }

  lemma LegalSnoc(log: seq<Exchange>, exchange: Exchange)
    requires Legal(log) && MaySend(log, exchange.request)
    ensures Legal(log + [exchange])
  {
    assert (log + [exchange])[..|log|] == log;
  }

  /** How the exchange loop may go on from one exchange. */
  ghost predicate Moves(before: Client, turn: Turn) {
    match turn
    case Again(next, request, purpose) =>
      && next.Driving(request, purpose)
      && before.conv.nextId <= next.conv.nextId
      && before.wire.log <= next.wire.log
      && |next.wire.script| < |before.wire.script|
      && (next.starting ==> before.starting)
    case Over(ran) => Ends(before, ran)
  }

  ghost predicate Ends(before: Client, ran: Ran) {
    match ran
    case Ran(after, error) =>
    && after.Inv()
    && before.conv.nextId <= after.conv.nextId
    && before.wire.log <= after.wire.log
    && (after.started ==> before.starting)
    && (error.None? && !before.starting ==> after.conv.Tells())
    && (after.conv.Waiting() ==> after.conv.JustPrompted())
    && error != Some(MissingIdentity)
    && (error.None? && after.conv.state.Authenticated? ==> after.wire.log[|after.wire.log| - 1].response == Some(Success))
  }

  lemma SilenceKeeps(c: Client, request: Request, purpose: Purpose)
    requires c.Driving(request, purpose) && c.wire.Response().None?
    ensures Moves(c, c.Step(request, purpose))
  {
    LegalSnoc(c.wire.log, Exchange(request, None));
    LastUserSnoc(c.wire.log, Exchange(request, None));
  }

  lemma SuccessKeeps(c: Client, request: Request, purpose: Purpose)
    requires c.Driving(request, purpose) && c.wire.Response() == Some(Success)
    ensures Moves(c, c.Step(request, purpose))
  {
    LegalSnoc(c.wire.log, Exchange(request, Some(Success)));
    LastUserSnoc(c.wire.log, Exchange(request, Some(Success)));
  }

  lemma FailureKeeps(c: Client, request: Request, purpose: Purpose)
    requires c.Driving(request, purpose) && c.wire.Response().Some? && c.wire.Response().value.Failure?
    ensures Moves(c, c.Step(request, purpose))
  {
    LegalSnoc(c.wire.log, Exchange(request, c.wire.Response()));
    LastUserSnoc(c.wire.log, Exchange(request, c.wire.Response()));
  }

  lemma UnexpectedKeeps(c: Client, request: Request, purpose: Purpose)
    requires c.Driving(request, purpose) && c.wire.Response().Some? && c.wire.Response().value.AuthMessage?
    requires !purpose.Authenticate?
    ensures Moves(c, c.Step(request, purpose))
  {
    LegalSnoc(c.wire.log, Exchange(request, c.wire.Response()));
    LastUserSnoc(c.wire.log, Exchange(request, c.wire.Response()));
  }

  lemma PromptKeeps(c: Client, request: Request, purpose: Purpose)
    requires c.Driving(request, purpose) && c.wire.Response().Some? && c.wire.Response().value.AuthMessage?
    requires purpose.Authenticate? && Prompts(c.wire.Response().value.kind)
    ensures Moves(c, c.Step(request, purpose))
  {
    LegalSnoc(c.wire.log, Exchange(request, c.wire.Response()));
    LastUserSnoc(c.wire.log, Exchange(request, c.wire.Response()));
  }

  lemma NoteKeeps(c: Client, request: Request, purpose: Purpose)
    requires c.Driving(request, purpose) && c.wire.Response().Some? && c.wire.Response().value.AuthMessage?
    requires purpose.Authenticate? && !Prompts(c.wire.Response().value.kind)
    ensures Moves(c, c.Step(request, purpose))
  {
    LegalSnoc(c.wire.log, Exchange(request, c.wire.Response()));
    LastUserSnoc(c.wire.log, Exchange(request, c.wire.Response()));
  }

  lemma MessageKeeps(c: Client, request: Request, purpose: Purpose)
    requires c.Driving(request, purpose) && c.wire.Response().Some? && c.wire.Response().value.AuthMessage?
    ensures Moves(c, c.Step(request, purpose))
  {
    if !purpose.Authenticate? {
      UnexpectedKeeps(c, request, purpose);
    } else if Prompts(c.wire.Response().value.kind) {
      PromptKeeps(c, request, purpose);
    } else {
      NoteKeeps(c, request, purpose);
    }
  }

  lemma StepKeeps(c: Client, request: Request, purpose: Purpose)
    requires c.Driving(request, purpose)
    ensures Moves(c, c.Step(request, purpose))
  {
    match c.wire.Response()
    case None => SilenceKeeps(c, request, purpose);
    case Some(Success) => SuccessKeeps(c, request, purpose);
    case Some(Failure(_)) => FailureKeeps(c, request, purpose);
    case Some(AuthMessage(_, _)) => MessageKeeps(c, request, purpose);
  }

  /** An exchange that authenticates and is answered by a prompt. */
  predicate AsksUser(exchange: Exchange) {
    && Authenticates(exchange.request)
    && exchange.response.Some? && exchange.response.value.AuthMessage? && Prompts(exchange.response.value.kind)
  }

  /** A client is left authenticating exactly if its last exchange asks the user with this counter exhausted. */
  ghost predicate RestsBy(nextId: nat, after: Client) {
    match after
    case Client(conv, _, _, _, Wire(_, log)) =>
    log != [] && (conv.state.Authenticating? <==> AsksUser(log[|log| - 1]) && nextId >= U64_MAX)
  }

  /** One exchange leaves the client authenticating exactly if it asks the user and no prompt identifier is left. */
  lemma StepExhausts(c: Client, request: Request, purpose: Purpose)
    requires c.Driving(request, purpose)
    ensures match c.Step(request, purpose)
            case Again(next, _, _) => next.conv.nextId == c.conv.nextId
            case Over(ran) => RestsBy(c.conv.nextId, ran.client)
  {
  }

  /**
   * An operation that exchanges anything leaves the client authenticating exactly if its last exchange
   * asks the user while the prompt identifiers had run out before.
   */
  lemma {:induction false} ExhaustionLeavesAuthenticating(c: Client, request: Request, purpose: Purpose)
    requires c.Driving(request, purpose)
    ensures RestsBy(c.conv.nextId, c.Drive(request, purpose).client)
    decreases |c.wire.script|
  {
    StepKeeps(c, request, purpose);
    StepExhausts(c, request, purpose);
    match c.Step(request, purpose)
    case Again(next, request', purpose') => ExhaustionLeavesAuthenticating(next, request', purpose');
    case Over(_) =>
  }

  lemma {:induction false} DriveKeeps(c: Client, request: Request, purpose: Purpose)
    requires c.Driving(request, purpose)
    ensures Ends(c, c.Drive(request, purpose))
    decreases |c.wire.script|
  {
    StepKeeps(c, request, purpose);
    match c.Step(request, purpose)
    case Over(_) =>
    case Again(next, request', purpose') => DriveKeeps(next, request', purpose');
  }

  /** A login that is asked for a secret when no prompt identifier is left rests authenticating. */
  lemma ExhaustedLoginStays()
    ensures var c := IdleClient([AuthMessage(SecretMessage, [])]).(conv := IDLE_CONVERSATION.(nextId := U64_MAX));
      && c.Inv()
      && c.Create([97]).error.Some? && c.Create([97]).client.conv.state.Authenticating?
  {
    var c := IdleClient([AuthMessage(SecretMessage, [])]).(conv := IDLE_CONVERSATION.(nextId := U64_MAX));
    var begun := c.(conv := c.conv.Begin().conv, pending := Some([97]));
    assert begun.Driving(CreateSession([97]), Authenticate);
    ExhaustionLeavesAuthenticating(begun, CreateSession([97]), Authenticate);
    assert begun.Step(CreateSession([97]), Authenticate).Over?;
  }

  // ---------------------------------------------------------------------------
  // Calls and whole runs

  /** How one call may change a client, as its controller needs to know it. */
  ghost predicate Follows(before: Client, ran: Ran) {
    match ran
    case Ran(after, error) =>
    && after.Inv()
    && Advances(before.conv, after.conv)
    && before.wire.log <= after.wire.log
    && error != Some(MissingIdentity)
  }

  lemma CreateKeeps(c: Client, username: Text)
    requires c.Inv()
    ensures Follows(c, c.Create(username)) && c.Create(username).client.started == c.started
    ensures c.Create(username).error.None? ==> c.Create(username).client.conv.Tells()
  {
    var did := c.conv.Begin();
    if username != [] && did.error.None? {
      var begun := c.(conv := did.conv, pending := Some(username), starting := false, started := false);
      DriveKeeps(begun, CreateSession(username), Authenticate);
    }
  }

  lemma RespondKeeps(c: Client, prompt: nat, answer: Text)
    requires c.Inv()
    ensures Follows(c, c.Respond(prompt, answer)) && c.Respond(prompt, answer).client.started == c.started
    ensures c.Respond(prompt, answer).error.None? ==> c.Respond(prompt, answer).client.conv.Tells()
  {
    var did := c.conv.BeginResponse(prompt);
    if did.error.None? {
      DriveKeeps(c.(conv := did.conv), PostResponse(Some(answer)), Authenticate);
    }
  }

  lemma LaunchKeeps(c: Client, command: Text)
    requires c.Inv()
    ensures Follows(c, c.Launch(command))
    ensures !c.Launch(command).client.conv.Waiting() || c.Launch(command).client == c
  {
    if c.conv.state.Authenticated? && !c.started {
      DriveKeeps(c.(starting := true), StartSession(command), Start);
    }
  }

  /** A launch succeeds exactly by one answered start request; a failed one starts nothing. */
  lemma LaunchStarts(c: Client, command: Text)
    requires c.Inv()
    ensures var Ran(after, error) := c.Launch(command);
      if error.None? then
        !c.started && after.started && c.conv.state.Authenticated? && after.conv == c.conv
        && after.wire.log == c.wire.log + [Exchange(StartSession(command), Some(Success))]
      else
        after.started == c.started && after.conv.events == c.conv.events
  {
    if c.conv.state.Authenticated? && !c.started {
      var turn := c.(starting := true).Step(StartSession(command), Start);
      assert turn.Over?;
    }
  }

  lemma CancelKeeps(c: Client)
    requires c.Inv()
    ensures Follows(c, c.CancelActive()) && c.CancelActive().client.started == c.started
    ensures c.CancelActive().error.None? ==> c.CancelActive().client.conv.Tells()
  {
    var did := c.conv.BeginCancel();
    if !c.started && did.error.None? {
      DriveKeeps(c.(conv := did.conv, pending := None), CancelSession, Cancel);
    }
  }

  /** A cancellation that was due leaves no conversation waiting. */
  lemma CancelLeavesNothing(c: Client)
    requires c.Inv() && c.NeedsCancel()
    ensures !c.CancelActive().client.conv.Waiting()
  {
    var turn := c.(conv := c.conv.BeginCancel().conv, pending := None).Step(CancelSession, Cancel);
    assert turn.Over?;
  }

  datatype Call =
    | CallCreate(username: Text)
    | CallRespond(prompt: nat, answer: Text)
    | CallLaunch(command: Text)
    | CallCancel
    | CallNextEvent

  function Apply(c: Client, call: Call): Ran {
    match call
    case CallCreate(username) => c.Create(username)
    case CallRespond(prompt, answer) => c.Respond(prompt, answer)
    case CallLaunch(command) => c.Launch(command)
    case CallCancel => c.CancelActive()
    case CallNextEvent => c.Settle(c.conv.NextEvent())
  }

  function Run(c: Client, calls: seq<Call>): Client
    decreases |calls|
  {
    if calls == [] then c else Run(Apply(c, calls[0]).client, calls[1..])
  }

  /** The result of each call of a run, in order. */
  function Results(c: Client, calls: seq<Call>): seq<Option<GreetdError>>
    decreases |calls|
  {
    if calls == [] then []
    else [Apply(c, calls[0]).error] + Results(Apply(c, calls[0]).client, calls[1..])
  }

  lemma CallKeeps(c: Client, call: Call)
    requires c.Inv()
    ensures Apply(c, call).client.Inv() && Apply(c, call).error != Some(MissingIdentity)
    ensures c.wire.log <= Apply(c, call).client.wire.log
  {
    match call
    case CallCreate(username) => CreateKeeps(c, username);
    case CallRespond(prompt, answer) => RespondKeeps(c, prompt, answer);
    case CallLaunch(command) => LaunchKeeps(c, command);
    case CallCancel => CancelKeeps(c);
    case CallNextEvent =>
  }

  lemma {:induction false} RunKeeps(c: Client, calls: seq<Call>)
    requires c.Inv()
    ensures Run(c, calls).Inv() && c.wire.log <= Run(c, calls).wire.log
    ensures Some(MissingIdentity) !in Results(c, calls)
    decreases |calls|
  {
    if calls != [] {
      CallKeeps(c, calls[0]);
      RunKeeps(Apply(c, calls[0]).client, calls[1..]);
    }
  }

  /**
   * Whatever the server answers and whatever is called: every request was allowed by the exchange
   * before it, a rejected authentication never rests before its cleanup request, no call reports
   * a missing identity, and a pending success names the account of the session request before it.
   */
  lemma ClientObeysProtocol(script: seq<Response>, calls: seq<Call>)
    ensures var c := Run(IdleClient(script), calls); var log := c.wire.log;
      && (forall i :: 0 <= i < |log| ==> Allowed(log, i))
      && (log != [] && Authenticates(log[|log| - 1].request) ==> log[|log| - 1].response != Some(Failure(true)))
      && Some(MissingIdentity) !in Results(IdleClient(script), calls)
      && Attributed(c.conv.events, LastUser(log))
  {
    RunKeeps(IdleClient(script), calls);
    var log := Run(IdleClient(script), calls).wire.log;
    forall i | 0 <= i < |log|
      ensures Allowed(log, i)
    {
      LegalEverywhere(log, i);
    }
  }

  /** A started session or a lost connection is the end: no later call sends anything or changes that. */
  lemma {:induction false} NothingAfterTheEnd(c: Client, calls: seq<Call>)
    requires c.Inv()
    requires c.started || c.conv.state.Disconnected?
    ensures var after := Run(c, calls);
      after.wire == c.wire && after.started == c.started && after.conv.state == c.conv.state
    decreases |calls|
  {
    if calls != [] {
      CallKeeps(c, calls[0]);
      NothingAfterTheEnd(Apply(c, calls[0]).client, calls[1..]);
    }
  }

  // ---------------------------------------------------------------------------
  // The mutable objects

  class GreetdSocket {
    var script: seq<Response>
    ghost var log: seq<Exchange>

    ghost function Model(): Wire
      reads this
    {
      Wire(script, log)
    }

    constructor (script: seq<Response>)
      ensures Model() == Wire(script, [])
    {
      this.script, log := script, [];
    }

    method Send(request: Request) returns (response: Option<Response>)
      modifies this
      ensures response == old(Model()).Response()
      ensures Model() == old(Model()).Exchanged(request)
    {
      response := if script == [] then None else Some(script[0]);
      log := log + [Exchange(request, response)];
      script := if script == [] then [] else script[1..];
    }
  }

  class GreeterClient {
    const transport: GreetdSocket
    const conversation: AuthConversation
    var pendingIdentity: Option<Text>
    var startingSession: bool
    var sessionStarted: bool

    ghost function Model(): Client
      reads this, transport, conversation
    {
      Client(conversation.Model(), pendingIdentity, startingSession, sessionStarted, transport.Model())
    }

    constructor (script: seq<Response>)
      ensures Model() == IdleClient(script)
      ensures fresh(transport) && fresh(conversation)
    {
      transport := new GreetdSocket(script);
      conversation := new AuthConversation();
      pendingIdentity, startingSession, sessionStarted := None, false, false;
    }

    predicate NeedsCancel()
      reads this, transport, conversation
      ensures NeedsCancel() == Model().NeedsCancel()
    {
      !startingSession && !sessionStarted && conversation.NeedsCancel()
    }

    method Create(username: Text) returns (error: Option<GreetdError>)
      modifies this, transport, conversation
      ensures Ran(Model(), error) == old(Model()).Create(username)
    {
      if username == [] {
        return Some(CoreRefusal(EmptyIdentity));
      }
      var refused := conversation.Begin();
      if refused.Some? {
        return Reported(refused);
      }
      pendingIdentity := Some(username);
      startingSession := false;
      sessionStarted := false;
      error := Drive(CreateSession(username), Authenticate);
    }

    method Respond(prompt: nat, answer: Text) returns (error: Option<GreetdError>)
      modifies this, transport, conversation
      ensures Ran(Model(), error) == old(Model()).Respond(prompt, answer)
    {
      var refused := conversation.BeginResponse(prompt);
      if refused.Some? {
        return Reported(refused);
      }
      error := Drive(PostResponse(Some(answer)), Authenticate);
    }

    method Launch(command: Text) returns (error: Option<GreetdError>)
      modifies this, transport, conversation
      ensures Ran(Model(), error) == old(Model()).Launch(command)
    {
      if conversation.state != Authenticated || startingSession || sessionStarted {
        return Some(CoreRefusal(InvalidState(StartSessionOp, conversation.state)));
      }
      startingSession := true;
      error := Drive(StartSession(command), Start);
    }

    method CancelActive() returns (error: Option<GreetdError>)
      modifies this, transport, conversation
      ensures Ran(Model(), error) == old(Model()).CancelActive()
    {
      if startingSession || sessionStarted {
        return Some(CoreRefusal(InvalidState(CancelSessionOp, conversation.state)));
      }
      var refused := conversation.BeginCancel();
      if refused.Some? {
        return Reported(refused);
      }
      pendingIdentity := None;
      error := Drive(CancelSession, Cancel);
    }

    method Drive(first: Request, opening: Purpose) returns (error: Option<GreetdError>)
      modifies this, transport, conversation
      ensures Ran(Model(), error) == old(Model()).Drive(first, opening)
    {
      var request, purpose := first, opening;
      while true
        invariant Model().Drive(request, purpose) == old(Model()).Drive(first, opening)
        decreases |transport.script|
      {
        var response := transport.Send(request);
        match response
        case None =>
          conversation.Disconnect();
          pendingIdentity := None;
          startingSession := false;
          return Some(Transport);
        case Some(Success) =>
          error := HandleSuccess(purpose);
          return;
        case Some(Failure(authentication)) =>
          var over;
          over, error := HandleFailure(authentication, purpose);
          if over {
            return;
          }
          request, purpose := CancelSession, Cleanup;
        case Some(AuthMessage(kind, text)) =>
          var over;
          over, error := HandleMessage(kind, text, purpose);
          if over {
            return;
          }
          request := PostResponse(None);
      }
    }

    method HandleSuccess(purpose: Purpose) returns (error: Option<GreetdError>)
      modifies this, conversation
      ensures Ran(Model(), error) == old(Model()).HandleSuccess(purpose)
    {
      var refused: Option<CoreError>;
      match purpose
      case Authenticate =>
        if pendingIdentity.None? {
          conversation.Fail();
          return Some(MissingIdentity);
        }
        var identity := pendingIdentity.value;
        pendingIdentity := None;
        refused := conversation.Succeed(identity);
        return Reported(refused);
      case Start =>
        startingSession := false;
        sessionStarted := true;
        return None;
      case Cancel =>
        refused := conversation.FinishCancel();
        return Reported(refused);
      case Cleanup =>
        refused := conversation.Reject();
        return Reported(refused);
    }

    method HandleFailure(authentication: bool, purpose: Purpose) returns (over: bool, error: Option<GreetdError>)
      modifies this, conversation
      ensures old(Model()).HandleFailure(authentication, purpose)
              == if over then Over(Ran(Model(), error)) else Again(Model(), CancelSession, Cleanup)
    {
      if purpose == Cleanup {
        var refused := conversation.Reject();
        return true, Reported(refused);
      }
      if purpose == Authenticate && authentication {
        var refused := conversation.BeginCancel();
        if refused.Some? {
          return true, Reported(refused);
        }
        pendingIdentity := None;
        startingSession := false;
        return false, None;
      }
      conversation.Fail();
      pendingIdentity := None;
      startingSession := false;
      return true, Some(Server(authentication));
    }

    method HandleMessage(kind: MessageType, text: Text, purpose: Purpose)
      returns (over: bool, error: Option<GreetdError>)
      modifies this, conversation
      ensures old(Model()).HandleMessage(kind, text, purpose)
              == if over then Over(Ran(Model(), error)) else Again(Model(), PostResponse(None), purpose)
    {
      if purpose != Authenticate {
        conversation.Fail();
        startingSession := false;
        return true, Some(UnexpectedResponse);
      }
      var refused: Option<CoreError>;
      match kind
      case SecretMessage =>
        refused := conversation.EmitPrompt(Secret, text);
        return true, Reported(refused);
      case VisibleMessage =>
        refused := conversation.EmitPrompt(Visible, text);
        return true, Reported(refused);
      case InfoMessage =>
        refused := conversation.EmitMessage(Info, text);
        return refused.Some?, Reported(refused);
      case ErrorMessage =>
        refused := conversation.EmitMessage(Error, text);
        return refused.Some?, Reported(refused);
    }
  }
}

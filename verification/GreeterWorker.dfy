/** The greeter's controller thread: one answer per request, in order (fomalhaut, controller_worker.rs). */
module GreeterWorker {
  import opened Prelude
  import opened Frontend
  import opened GreeterController
  import opened Views
  import Greetd

  datatype Command = Submit(epoch: nat, request: Request) | CancelForPage | Shutdown

  /** A command, and whether the host still listens to the output channel. */
  datatype Input = Input(command: Command, host: bool)

  /** The worker's state with everything it ever put on its output channel. */
  datatype Worker = Worker(greeter: Greeter, outputs: seq<Output>, answered: seq<Input>, stopped: bool) {
    function Send(output: Output, host: bool): Worker {
      if host then this.(outputs := outputs + [output]) else this
    }

    /** Leaving the loop cancels whatever is active. */
    function Stop(): Worker {
      this.(greeter := greeter.CancelForLifecycle().greeter, stopped := true)
    }

    function Step(input: Input): Worker {
      if stopped then this
      else
        match input.command
        case Submit(epoch, request) => HandleRequest(epoch, request, input)
        case CancelForPage =>
          var cancelled := greeter.CancelForLifecycle();
          var next := this.(greeter := cancelled.greeter);
          if cancelled.ok then next else next.Send(FatalView, input.host).Stop()
        case Shutdown =>
          var cancelled := greeter.CancelForLifecycle();
          this.(greeter := cancelled.greeter, stopped := true).Send(FatalView, input.host && !cancelled.ok)
    }

    function HandleRequest(epoch: nat, request: Request, input: Input): Worker {
      var Handled(handled, reported) := greeter.Handle(request);
      match reported
      case None => this.(greeter := handled).Send(FatalView, input.host).Stop()
      case Some(batch) => this.(greeter := handled).Answer(epoch, batch, input)
    }

    function Answer(epoch: nat, batch: Batch, input: Input): Worker {
      if input.host then
        this.(outputs := outputs + [Answered(epoch, batch.response, batch.events, batch.sessionStarted)],
              answered := answered + [input])
      else
        Stop()
    }

    ghost predicate Inv() {
      && Numbered(GreeterMode, Delivered(outputs))
      && Aligned(0, outputs)
      && Answers(outputs, answered)
      && (!stopped ==>
            && greeter.Settled()
            && greeter.auth.next == |Delivered(outputs)| + 1
            && FatalView !in outputs)
    }
  }

  function Launched(script: seq<Greetd.Response>, sessions: seq<Session>, users: nat): Worker {
    Worker(Connected(script, sessions, users), [Ready], [], false)
  }

  function Run(w: Worker, inputs: seq<Input>): Worker
    decreases |inputs|
  {
    if inputs == [] then w else Run(w, inputs[..|inputs| - 1]).Step(inputs[|inputs| - 1])
  }

  /** The requests among the inputs. */
  function Requests(inputs: seq<Input>): seq<Input> {
    if inputs == [] then []
    else
      Requests(inputs[..|inputs| - 1])
      + (if inputs[|inputs| - 1].command.Submit? then [inputs[|inputs| - 1]] else [])
  }

  /** The answers on the channel are, in order, those to the answered requests, each in its own epoch. */
  ghost predicate Answers(outputs: seq<Output>, answered: seq<Input>) {
    if outputs == [] then answered == []
    else
      var last := outputs[|outputs| - 1];
      if last.Answered? then
        && answered != []
        && answered[|answered| - 1].command.Submit?
        && answered[|answered| - 1].command.epoch == last.epoch
        && (last.response.State? <==> answered[|answered| - 1].command.request.StateGet?)
        && Answers(outputs[..|outputs| - 1], answered[..|answered| - 1])
      else
        Answers(outputs[..|outputs| - 1], answered)
  }

  /** The answers among the outputs. */
  function Replies(outputs: seq<Output>): seq<Output> {
    if outputs == [] then []
    else
      Replies(outputs[..|outputs| - 1])
      + (if outputs[|outputs| - 1].Answered? then [outputs[|outputs| - 1]] else [])
  }

  /** What one command is answered by: to a request, the batch computed for it, if there is one. */
  function ReplyTo(w: Worker, input: Input): seq<Output> {
    match input.command
    case Submit(epoch, request) =>
      if w.stopped || !input.host then []
      else (match w.greeter.Handle(request).batch
            case None => []
            case Some(batch) => [Answered(epoch, batch.response, batch.events, batch.sessionStarted)])
    case _ => []
  }

  /** What the commands of a run are answered by, each from the state it found. */
  function RepliesTo(w: Worker, inputs: seq<Input>): seq<Output>
    decreases |inputs|
  {
    if inputs == [] then []
    else
      RepliesTo(w, inputs[..|inputs| - 1]) + ReplyTo(Run(w, inputs[..|inputs| - 1]), inputs[|inputs| - 1])
  }

  lemma RepliesSnoc(outputs: seq<Output>, output: Output)
    ensures Replies(outputs + [output]) == Replies(outputs) + if output.Answered? then [output] else []
  {
    assert (outputs + [output])[..|outputs|] == outputs;
  }

  lemma SendKeeps(outputs: seq<Output>, answered: seq<Input>, output: Output)
    requires Numbered(GreeterMode, Delivered(outputs)) && Aligned(0, outputs) && Answers(outputs, answered)
    requires !output.Answered? && output.Envelopes() == []
    ensures var after := outputs + [output];
      Delivered(after) == Delivered(outputs) && Aligned(0, after) && Answers(after, answered)
  {
    assert (outputs + [output])[..|outputs|] == outputs;
  }

  /** A batch answers its request, continues the numbering, and any snapshot in it is aligned. */
  lemma AnswerKeeps(w: Worker, handled: Greeter, epoch: nat, batch: Batch, input: Input)
    requires w.Inv() && !w.stopped
    requires Accounts(w.greeter, handled, batch.events)
    requires Places(Answered(epoch, batch.response, batch.events, batch.sessionStarted), |Delivered(w.outputs)|)
    requires input.command.Submit? && input.command.epoch == epoch
    requires batch.response.State? <==> input.command.request.StateGet?
    ensures w.(greeter := handled).Answer(epoch, batch, input).Inv()
  {
    var output := Answered(epoch, batch.response, batch.events, batch.sessionStarted);
    var outputs, answered := w.outputs + [output], w.answered + [input];
    assert outputs[..|w.outputs|] == w.outputs && answered[..|w.answered|] == w.answered;
    NumbersGoOn(GreeterMode, Delivered(w.outputs), w.greeter.auth, handled.auth, batch.events);
  }

  /** Exactly the snapshot request is answered by a snapshot, which names the last event published. */
  lemma BatchPlaces(g: Greeter, request: Request, epoch: nat)
    requires g.Settled() && g.Handle(request).batch.Some?
    ensures var batch := g.Handle(request).batch.value;
      && Places(Answered(epoch, batch.response, batch.events, batch.sessionStarted), g.auth.next - 1)
      && (batch.response.State? <==> request.StateGet?)
  {
    if request.StateGet? {
      StateGetAnswers(g);
    }
  }

  lemma RequestKeeps(w: Worker, epoch: nat, request: Request, input: Input)
    requires w.Inv() && !w.stopped && input.command == Submit(epoch, request)
    ensures w.HandleRequest(epoch, request, input).Inv()
  {
    var Handled(handled, reported) := w.greeter.Handle(request);
    HandleAccounts(w.greeter, request);
    if reported.Some? {
      BatchPlaces(w.greeter, request, epoch);
      AnswerKeeps(w, handled, epoch, reported.value, input);
    } else {
      SendKeeps(w.outputs, w.answered, FatalView);
    }
  }

  lemma CancelKeeps(w: Worker, input: Input)
    requires w.Inv() && !w.stopped && !input.command.Submit?
    ensures w.Step(input).Inv()
  {
    CancelSettles(w.greeter);
    SendKeeps(w.outputs, w.answered, FatalView);
  }

  lemma StepKeeps(w: Worker, input: Input)
    requires w.Inv()
    ensures w.Step(input).Inv()
  {
    if !w.stopped {
      match input.command
      case Submit(epoch, request) => RequestKeeps(w, epoch, request, input);
      case _ => CancelKeeps(w, input);
    }
  }

  lemma LaunchKeeps(script: seq<Greetd.Response>, sessions: seq<Session>, users: nat)
    requires |sessions| <= MAX_SESSIONS && users <= MAX_USERS
    requires forall session :: session in sessions ==> ValidLabel(session.id)
    ensures Launched(script, sessions, users).Inv()
  {
    ConnectedIsSettled(script, sessions, users);
    ReadyCarriesNothing(0);
    var outputs: seq<Output> := [Ready];
    assert outputs[..0] == [];
    assert Answers(outputs[..0], []);
  }

  /** What one command adds to the answered requests. */
  lemma StepAnswers(w: Worker, input: Input)
    ensures var after := w.Step(input);
      if after.stopped then after.answered == w.answered
      else after.answered == w.answered + if input.command.Submit? then [input] else []
  {
  }

  /** Between these two moments exactly these answers were put on the channel, one per answered request. */
  ghost predicate Replied(before: Worker, after: Worker, replies: seq<Output>) {
    && Replies(after.outputs) == Replies(before.outputs) + replies
    && |after.answered| == |before.answered| + |replies|
  }

  lemma RepliedJoins(a: Worker, b: Worker, c: Worker, first: seq<Output>, second: seq<Output>)
    requires Replied(a, b, first) && Replied(b, c, second)
    ensures Replied(a, c, first + second)
  {
  }

  /** One command adds exactly its own answer to those on the channel. */
  lemma StepReplies(w: Worker, input: Input)
    ensures Replied(w, w.Step(input), ReplyTo(w, input))
  {
    RepliesSnoc(w.outputs, FatalView);
    if ReplyTo(w, input) != [] {
      RepliesSnoc(w.outputs, ReplyTo(w, input)[0]);
    }
  }

  lemma {:induction false} RunReplies(w: Worker, inputs: seq<Input>)
    ensures Replied(w, Run(w, inputs), RepliesTo(w, inputs))
    decreases |inputs|
  {
    if inputs == [] {
      assert Replies(w.outputs) + [] == Replies(w.outputs);
    } else {
      var before, last := Run(w, inputs[..|inputs| - 1]), inputs[|inputs| - 1];
      RunReplies(w, inputs[..|inputs| - 1]);
      StepReplies(before, last);
      RepliedJoins(w, before, before.Step(last), RepliesTo(w, inputs[..|inputs| - 1]), ReplyTo(before, last));
    }
  }

  /**
   * Whatever greetd answers, the greeter's output channel carries event sequences 1, 2, 3, ... without
   * gap, every snapshot names the last event before it, and the answers on it are, in order, exactly
   * the batches computed for the requests, each from the state its request found: for all of them
   * while the worker runs, and for a prefix of them once it has stopped.
   */
  lemma {:induction false} RunAnswersInOrder(w: Worker, inputs: seq<Input>)
    requires w.Inv() && !w.stopped && w.answered == []
    ensures var after := Run(w, inputs);
      && after.Inv()
      && after.answered <= Requests(inputs)
      && (!after.stopped ==> after.answered == Requests(inputs))
      && Replied(w, after, RepliesTo(w, inputs))
    decreases |inputs|
  {
    if inputs != [] {
      var before := inputs[..|inputs| - 1];
      RunAnswersInOrder(w, before);
      StepKeeps(Run(w, before), inputs[|inputs| - 1]);
      StepAnswers(Run(w, before), inputs[|inputs| - 1]);
    }
    RunReplies(w, inputs);
  }

  // ---------------------------------------------------------------------------
  // The mutable object

  class GreeterWorker {
    const controller: GreeterController
    var outputs: seq<Output>
    var stopped: bool
    ghost var answered: seq<Input>

    ghost function Model(): Worker
      reads this, controller.Repr()
    {
      Worker(controller.Model(), outputs, answered, stopped)
    }

    constructor (script: seq<Greetd.Response>, sessions: seq<Session>, users: nat)
      ensures Model() == Launched(script, sessions, users)
      ensures fresh(controller.Repr())
    {
      controller := new GreeterController(script, sessions, users);
      outputs, stopped, answered := [Ready], false, [];
    }

    /** Serves commands until the loop is left. */
    method Serve(inputs: seq<Input>)
      modifies this, controller.Repr()
      ensures Model() == Run(old(Model()), inputs)
    {
      for i := 0 to |inputs|
        invariant Model() == Run(old(Model()), inputs[..i])
      {
        Step(inputs[i]);
        assert inputs[..i + 1][..i] == inputs[..i];
      }
      assert inputs[..|inputs|] == inputs;
    }

    method Step(input: Input)
      modifies this, controller.Repr()
      ensures Model() == old(Model()).Step(input)
    {
      if stopped {
        return;
      }
      match input.command
      case Submit(epoch, request) => HandleRequest(epoch, request, input);
      case CancelForPage =>
        var ok := controller.CancelForLifecycle();
        if !ok {
          Send(FatalView, input.host);
          Stop();
        }
      case Shutdown =>
        var ok := controller.CancelForLifecycle();
        if !ok {
          Send(FatalView, input.host);
        }
        stopped := true;
    }

    method HandleRequest(epoch: nat, request: Request, input: Input)
      modifies this, controller.Repr()
      ensures Model() == old(Model()).HandleRequest(epoch, request, input)
    {
      ghost var before := Model();
      var reported := controller.Handle(request);
      assert Model() == before.(greeter := controller.Model());
      if reported.None? {
        Send(FatalView, input.host);
        Stop();
      } else if input.host {
        var batch := reported.value;
        outputs := outputs + [Answered(epoch, batch.response, batch.events, batch.sessionStarted)];
        answered := answered + [input];
      } else {
        Stop();
      }
    }

    method Send(output: Output, host: bool)
      modifies this`outputs
      ensures Model() == old(Model()).Send(output, host)
    {
      if host {
        outputs := outputs + [output];
      }
    }

    method Stop()
      modifies this, controller.Repr()
      ensures Model() == old(Model()).Stop()
    {
      var _ := controller.CancelForLifecycle();
      stopped := true;
    }
  }
}

/** The one-shot PAM worker: the peer of the reauthentication backend (fomalhaut-pam, worker.rs). */
module PamWorker {
  import opened Prelude
  import Ipc

  /** A conversation callback made by PAM. */
  datatype Call =
    | Ask(kind: Ipc.WorkerPromptKind, text: Text)
    | Tell(level: Ipc.WorkerMessageLevel, text: Text)

  datatype Code =
    | Success
    | PermDenied
    | AuthErr
    | CredInsufficient
    | UserUnknown
    | MaxTries
    | NewAuthtokRequired
    | AcctExpired
    | AuthtokExpired
    | OtherCode

  /** What the PAM stack does: its callbacks and result in each of its two phases. */
  datatype Stack = Stack(auth: seq<Call>, authCode: Code, acct: seq<Call>, acctCode: Code)

  datatype Outcome = Authenticated | Rejected | Fatal {
    function Message(): Ipc.WorkerMessage {
      match this
      case Authenticated => Ipc.AuthenticatedFrame
      case Rejected => Ipc.RejectedFrame
      case Fatal => Ipc.FatalFrame
    }
  }

  function CodeOutcome(code: Code, failed: bool): Outcome {
    if failed then Fatal
    else match code
         case Success => Authenticated
         case PermDenied | AuthErr | CredInsufficient | UserUnknown | MaxTries
            | NewAuthtokRequired | AcctExpired | AuthtokExpired => Rejected
         case OtherCode => Fatal
  }

  /** A worker conversation after a callback: what it wrote, and the answer it now waits for. */
  datatype Did = Did(peer: Peer, written: Option<Ipc.WorkerMessage>, awaiting: Option<Ipc.U64>)

  /** The worker's side of the conversation. */
  datatype Peer = Peer(nextPrompt: nat, frames: nat, failed: bool) {
    function Count(): Peer {
      this.(frames := frames + 1)
    }

    predicate OverBudget() {
      frames > Ipc.MAX_TRANSACTION_FRAMES
    }

    function Send(message: Ipc.WorkerMessage): Did {
      if Count().OverBudget() || Ipc.WriteWorker(message).Err? then Did(Count(), None, None)
      else Did(Count(), Some(message), None)
    }

    /** The first half of a prompt callback: write the prompt and count the awaited answer. */
    function Ask(kind: Ipc.WorkerPromptKind, text: Text): Did {
      if failed || !Ipc.IsUtf8(text) || nextPrompt >= U64_MAX then
        Did(this, None, None)
      else
        var sent := this.(nextPrompt := nextPrompt + 1).Send(Ipc.PromptFrame(nextPrompt, kind, text));
        var counted := sent.peer.Count();
        if sent.written.None? then
          Did(sent.peer.(failed := true), None, None)
        else if counted.OverBudget() then
          Did(counted.(failed := true), sent.written, None)
        else
          Did(counted, sent.written, Some(nextPrompt))
    }

    /** The second half: the answer that reached this prompt, or a failed conversation. */
    function Accept(prompt: Ipc.U64, message: Ipc.Result<Ipc.ParentMessage>): (Peer, Option<Text>) {
      if message.Ok? && message.value.Answer? && message.value.prompt == prompt && 0 !in message.value.response then
        (this, Some(message.value.response))
      else
        (this.(failed := true), None)
    }

    function Tell(level: Ipc.WorkerMessageLevel, text: Text): Did {
      if failed then
        Did(this, None, None)
      else if !Ipc.IsUtf8(text) then
        Did(this.(failed := true), None, None)
      else
        var sent := Send(Ipc.MessageFrame(level, text));
        if sent.written.None? then Did(sent.peer.(failed := true), None, None) else sent
    }
  }

  const FRESH_PEER := Peer(1, 0, false)

  /** The bytes of an optional written message. */
  function Written(message: Option<Ipc.WorkerMessage>): seq<Byte> {
    match message
    case None => []
    case Some(value) =>
      match Ipc.WriteWorker(value)
      case Ok(bytes) => bytes
      case Err(_) => []
  }

  /** The decoded message a blocking read finds at the front of a byte stream. */
  function Arrival(stream: seq<Byte>): Ipc.Result<Ipc.ParentMessage> {
    match Ipc.ReadParent(stream)
    case Ok(Item(message, _)) => Ipc.Ok(message)
    case Err(error) => Ipc.Err(error)
  }

  // ---------------------------------------------------------------------------
  // The mutable object

  class WorkerConversation {
    const reader: Ipc.Pipe
    const writer: Ipc.Pipe
    var nextPrompt: nat
    var frames: nat
    var failed: bool

    function Model(): Peer
      reads this
    {
      Peer(nextPrompt, frames, failed)
    }

    constructor (reader: Ipc.Pipe, writer: Ipc.Pipe)
      ensures Model() == FRESH_PEER && this.reader == reader && this.writer == writer
    {
      this.reader, this.writer := reader, writer;
      nextPrompt, frames, failed := 1, 0, false;
    }

    method CountFrame() returns (ok: bool)
      modifies this
      ensures Model() == old(Model()).Count() && ok == !Model().OverBudget()
    {
      frames := frames + 1;
      return frames <= Ipc.MAX_TRANSACTION_FRAMES;
    }

    method WaitForBegin() returns (ok: bool)
      modifies this, reader
      ensures Model() == old(Model()).Count()
      ensures ok <==> !Model().OverBudget() && Arrival(old(reader.bytes)) == Ipc.Ok(Ipc.Begin)
    {
      var counted := CountFrame();
      if !counted {
        return false;
      }
      var message := reader.ReadParentMessage();
      return message == Ipc.Ok(Ipc.Begin);
    }

    method Send(message: Ipc.WorkerMessage) returns (ok: bool)
      modifies this, writer
      ensures var did := old(Model()).Send(message);
              Model() == did.peer && ok == did.written.Some?
              && writer.bytes == old(writer.bytes) + Written(did.written)
    {
      var counted := CountFrame();
      if !counted {
        return false;
      }
      var error := writer.WriteWorkerMessage(message);
      return error == None;
    }

    method Prompt(kind: Ipc.WorkerPromptKind, text: Text) returns (answer: Option<Text>)
      requires reader != writer
      modifies this, reader, writer
      ensures var did := old(Model()).Ask(kind, text);
              && writer.bytes == old(writer.bytes) + Written(did.written)
              && (did.awaiting.None? ==> Model() == did.peer && answer == None && reader.bytes == old(reader.bytes))
              && (did.awaiting.Some? ==>
                    (Model(), answer) == did.peer.Accept(did.awaiting.value, Arrival(old(reader.bytes))))
    {
      if failed || !Ipc.IsUtf8(text) {
        return None;
      }
      var id := nextPrompt;
      if nextPrompt >= U64_MAX {
        return None;
      }
      nextPrompt := nextPrompt + 1;
      var sent := Send(Ipc.PromptFrame(id, kind, text));
      if !sent {
        failed := true;
        return None;
      }
      var counted := CountFrame();
      if !counted {
        failed := true;
        return None;
      }
      var message := reader.ReadParentMessage();
      if message.Err? || !message.value.Answer? {
        failed := true;
        return None;
      }
      if message.value.prompt != id || 0 in message.value.response {
        failed := true;
        return None;
      }
      return Some(message.value.response);
    }

    method Message(level: Ipc.WorkerMessageLevel, text: Text)
      modifies this, writer
      ensures var did := old(Model()).Tell(level, text);
              Model() == did.peer && writer.bytes == old(writer.bytes) + Written(did.written)
    {
      if failed {
        return;
      }
      if !Ipc.IsUtf8(text) {
        failed := true;
        return;
      }
      var sent := Send(Ipc.MessageFrame(level, text));
      if !sent {
        failed := true;
      }
    }
  }
}

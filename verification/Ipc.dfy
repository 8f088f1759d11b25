/** The bounded parent/worker message codec and framing (fomalhaut-pam, ipc.rs). */
module Ipc {
  import opened Prelude

  const MAX_USERNAME_BYTES := 256
  const MAX_PROMPT_BYTES := 4 * 1024
  const MAX_ANSWER_BYTES := 16 * 1024
  const MAX_TRANSACTION_FRAMES := 128
  const HEADER_BYTES := 5
  const MAX_FRAME_BYTES := MAX_ANSWER_BYTES + 8

  const PREPARE: Byte := 1
  const BEGIN: Byte := 2
  const ANSWER: Byte := 3
  const READY: Byte := 16
  const PROMPT_SECRET: Byte := 17
  const PROMPT_VISIBLE: Byte := 18
  const MESSAGE_INFO: Byte := 19
  const MESSAGE_ERROR: Byte := 20
  const AUTHENTICATED: Byte := 21
  const REJECTED: Byte := 22
  const FATAL: Byte := 23

  type U64 = n: nat | n <= U64_MAX

  datatype ParentMessage =
    | Prepare(username: Text)
    | Begin
    | Answer(prompt: U64, response: Text)

  datatype WorkerPromptKind = SecretPrompt | VisiblePrompt

  datatype WorkerMessageLevel = InfoLevel | ErrorLevel

  datatype WorkerMessage =
    | Ready
    | PromptFrame(prompt: U64, kind: WorkerPromptKind, message: Text)
    | MessageFrame(level: WorkerMessageLevel, text: Text)
    | AuthenticatedFrame
    | RejectedFrame
    | FatalFrame

  datatype IpcError = Disconnected | Io | InvalidFrame | LimitExceeded

  datatype Result<+T> = Ok(value: T) | Err(error: IpcError)

  /** One decoded item together with the bytes that follow it. */
  datatype Item<+T> = Item(value: T, rest: seq<Byte>)

  datatype Frame = Frame(tag: Byte, payload: seq<Byte>)

  // ---------------------------------------------------------------------------
  // Numbers and text

  function BigEndian(n: nat, width: nat): (bytes: seq<Byte>)
    ensures |bytes| == width
  {
    if width == 0 then [] else BigEndian(n / 256, width - 1) + [n % 256]
  }

  function FromBigEndian(bytes: seq<Byte>): nat {
    if bytes == [] then 0
    else FromBigEndian(bytes[..|bytes| - 1]) * 256 + bytes[|bytes| - 1]
  }

  ghost function Pow256(width: nat): nat {
    if width == 0 then 1 else 256 * Pow256(width - 1)
  }

  lemma WordBounds()
    ensures Pow256(4) == 0x1_0000_0000
    ensures Pow256(8) == U64_MAX + 1
  {
    assert Pow256(2) == 0x1_0000;
    assert Pow256(4) == 0x1_0000_0000;
    assert Pow256(6) == 0x1_0000_0000_0000;
  }

  lemma {:induction false} BigEndianRoundTrip(n: nat, width: nat)
    requires n < Pow256(width)
    ensures FromBigEndian(BigEndian(n, width)) == n
  {
    if width > 0 {
      BigEndianRoundTrip(n / 256, width - 1);
      assert BigEndian(n, width)[..width - 1] == BigEndian(n / 256, width - 1);
    }
  }

  lemma {:induction false} FromBigEndianRoundTrip(bytes: seq<Byte>)
    ensures FromBigEndian(bytes) < Pow256(|bytes|)
    ensures BigEndian(FromBigEndian(bytes), |bytes|) == bytes
  {
    if bytes != [] {
      FromBigEndianRoundTrip(bytes[..|bytes| - 1]);
    }
  }

  predicate Continues(b: Byte) {
    0x80 <= b < 0xC0
  }

  /** The length of the UTF-8 sequence a nonempty byte string starts with, or 0 (RFC 3629, section 4). */
  function SequenceLength(s: seq<Byte>): (n: nat)
    requires s != []
    ensures n <= |s|
  {
    if s[0] < 0x80 then 1
    else if 0xC2 <= s[0] <= 0xDF && |s| >= 2 && Continues(s[1]) then 2
    else if 0xE0 <= s[0] <= 0xEF && |s| >= 3 && Continues(s[1]) && Continues(s[2])
            && (s[0] == 0xE0 ==> 0xA0 <= s[1]) && (s[0] == 0xED ==> s[1] < 0xA0) then 3
    else if 0xF0 <= s[0] <= 0xF4 && |s| >= 4 && Continues(s[1]) && Continues(s[2]) && Continues(s[3])
            && (s[0] == 0xF0 ==> 0x90 <= s[1]) && (s[0] == 0xF4 ==> s[1] < 0x90) then 4
    else 0
  }

  predicate IsUtf8(s: seq<Byte>) {
    s == [] || (var n := SequenceLength(s); n > 0 && IsUtf8(s[n..]))
  }

  function ValidateText(value: seq<Byte>, maximum: nat, allowEmpty: bool): Option<IpcError> {
    if (!allowEmpty && value == []) || |value| > maximum || 0 in value then Some(LimitExceeded)
    else if !IsUtf8(value) then Some(InvalidFrame)
    else None
  }

  // ---------------------------------------------------------------------------
  // Messages as frames

  function ParentFrame(message: ParentMessage): Result<Frame> {
    match message
    case Prepare(username) =>
      (match ValidateText(username, MAX_USERNAME_BYTES, false)
       case Some(error) => Err(error)
       case None => Ok(Frame(PREPARE, username)))
    case Begin => Ok(Frame(BEGIN, []))
    case Answer(prompt, response) =>
      if |response| > MAX_ANSWER_BYTES || 0 in response then Err(LimitExceeded)
      else Ok(Frame(ANSWER, BigEndian(prompt, 8) + response))
  }

  function FrameParent(frame: Frame): Result<ParentMessage> {
    var Frame(tag, payload) := frame;
    if tag == PREPARE then
      match ValidateText(payload, MAX_USERNAME_BYTES, false)
      case Some(error) => Err(error)
      case None => Ok(Prepare(payload))
    else if tag == BEGIN && payload == [] then Ok(Begin)
    else if tag == ANSWER && 8 <= |payload| <= MAX_ANSWER_BYTES + 8 then
      if 0 in payload[8..] then Err(InvalidFrame)
      else
        WordBounds(); FromBigEndianRoundTrip(payload[..8]);
        Ok(Answer(FromBigEndian(payload[..8]), payload[8..]))
    else Err(InvalidFrame)
  }

  function WorkerFrame(message: WorkerMessage): Result<Frame> {
    match message
    case Ready => Ok(Frame(READY, []))
    case PromptFrame(prompt, kind, text) =>
      (match ValidateText(text, MAX_PROMPT_BYTES, true)
       case Some(error) => Err(error)
       case None => Ok(Frame(if kind.SecretPrompt? then PROMPT_SECRET else PROMPT_VISIBLE, BigEndian(prompt, 8) + text)))
    case MessageFrame(level, text) =>
      (match ValidateText(text, MAX_PROMPT_BYTES, true)
       case Some(error) => Err(error)
       case None => Ok(Frame(if level.InfoLevel? then MESSAGE_INFO else MESSAGE_ERROR, text)))
    case AuthenticatedFrame => Ok(Frame(AUTHENTICATED, []))
    case RejectedFrame => Ok(Frame(REJECTED, []))
    case FatalFrame => Ok(Frame(FATAL, []))
  }

  function FrameWorker(frame: Frame): Result<WorkerMessage> {
    var Frame(tag, payload) := frame;
    if tag == READY && payload == [] then Ok(Ready)
    else if tag in {PROMPT_SECRET, PROMPT_VISIBLE} && |payload| >= 8 then
      match ValidateText(payload[8..], MAX_PROMPT_BYTES, true)
      case Some(error) => Err(error)
      case None =>
        WordBounds(); FromBigEndianRoundTrip(payload[..8]);
        Ok(PromptFrame(FromBigEndian(payload[..8]), if tag == PROMPT_SECRET then SecretPrompt else VisiblePrompt, payload[8..]))
    else if tag in {MESSAGE_INFO, MESSAGE_ERROR} then
      match ValidateText(payload, MAX_PROMPT_BYTES, true)
      case Some(error) => Err(error)
      case None => Ok(MessageFrame(if tag == MESSAGE_INFO then InfoLevel else ErrorLevel, payload))
    else if tag == AUTHENTICATED && payload == [] then Ok(AuthenticatedFrame)
    else if tag == REJECTED && payload == [] then Ok(RejectedFrame)
    else if tag == FATAL && payload == [] then Ok(FatalFrame)
    else Err(InvalidFrame)
  }

  // ---------------------------------------------------------------------------
  // Frames as bytes

  function FrameBytes(frame: Frame): Result<seq<Byte>> {
    if |frame.payload| > MAX_FRAME_BYTES then Err(LimitExceeded)
    else Ok([frame.tag] + BigEndian(|frame.payload|, 4) + frame.payload)
  }

  function TakeFrame(stream: seq<Byte>): (r: Result<Item<Frame>>)
    ensures r.Ok? ==> |r.value.rest| < |stream|
  {
    if |stream| < HEADER_BYTES then Err(Disconnected)
    else
      var length := FromBigEndian(stream[1..HEADER_BYTES]);
      var body := stream[HEADER_BYTES..];
      if length > MAX_FRAME_BYTES then Err(LimitExceeded)
      else if |body| < length then Err(Disconnected)
      else Ok(Item(Frame(stream[0], body[..length]), body[length..]))
  }

  function WriteParent(message: ParentMessage): Result<seq<Byte>> {
    match ParentFrame(message)
    case Err(error) => Err(error)
    case Ok(frame) => FrameBytes(frame)
  }

  function ReadParent(stream: seq<Byte>): (r: Result<Item<ParentMessage>>)
    ensures r.Ok? ==> |r.value.rest| < |stream|
  {
    match TakeFrame(stream)
    case Err(error) => Err(error)
    case Ok(Item(frame, rest)) =>
      match FrameParent(frame)
      case Err(error) => Err(error)
      case Ok(message) => Ok(Item(message, rest))
  }

  function WriteWorker(message: WorkerMessage): Result<seq<Byte>> {
    match WorkerFrame(message)
    case Err(error) => Err(error)
    case Ok(frame) => FrameBytes(frame)
  }

  function ReadWorker(stream: seq<Byte>): (r: Result<Item<WorkerMessage>>)
    ensures r.Ok? ==> |r.value.rest| < |stream|
  {
    match TakeFrame(stream)
    case Err(error) => Err(error)
    case Ok(Item(frame, rest)) =>
      match FrameWorker(frame)
      case Err(error) => Err(error)
      case Ok(message) => Ok(Item(message, rest))
  }

  // ---------------------------------------------------------------------------
  // The codecs are exact inverses

  lemma FrameRoundTrip(frame: Frame, rest: seq<Byte>)
    requires FrameBytes(frame).Ok?
    ensures TakeFrame(FrameBytes(frame).value + rest) == Ok(Item(frame, rest))
  {
    var length := BigEndian(|frame.payload|, 4);
    var stream := FrameBytes(frame).value + rest;
    WordBounds();
    BigEndianRoundTrip(|frame.payload|, 4);
    assert stream[1..HEADER_BYTES] == length;
    assert stream[HEADER_BYTES..] == frame.payload + rest;
  }

  lemma FrameCanonical(stream: seq<Byte>)
    requires TakeFrame(stream).Ok?
    ensures FrameBytes(TakeFrame(stream).value.value).Ok?
    ensures stream == FrameBytes(TakeFrame(stream).value.value).value + TakeFrame(stream).value.rest
  {
    FromBigEndianRoundTrip(stream[1..HEADER_BYTES]);
  }

  lemma PromptPayload(n: U64, text: Text)
    ensures var payload := BigEndian(n, 8) + text;
            payload[8..] == text && FromBigEndian(payload[..8]) == n
  {
    WordBounds();
    BigEndianRoundTrip(n, 8);
    assert (BigEndian(n, 8) + text)[..8] == BigEndian(n, 8);
  }

  lemma SplitPayload(payload: seq<Byte>)
    requires |payload| >= 8
    ensures BigEndian(FromBigEndian(payload[..8]), 8) + payload[8..] == payload
  {
    FromBigEndianRoundTrip(payload[..8]);
  }

  lemma ParentFrameRoundTrip(message: ParentMessage)
    requires ParentFrame(message).Ok?
    ensures FrameParent(ParentFrame(message).value) == Ok(message)
  {
    if message.Answer? {
      PromptPayload(message.prompt, message.response);
    }
  }

  lemma WorkerFrameRoundTrip(message: WorkerMessage)
    requires WorkerFrame(message).Ok?
    ensures FrameWorker(WorkerFrame(message).value) == Ok(message)
  {
    if message.PromptFrame? {
      PromptPayload(message.prompt, message.message);
    }
  }

  /** Reading a written parent message gives it back and leaves the rest of the stream alone. */
  lemma ParentRoundTrip(message: ParentMessage, rest: seq<Byte>)
    requires WriteParent(message).Ok?
    ensures ReadParent(WriteParent(message).value + rest) == Ok(Item(message, rest))
  {
    FrameRoundTrip(ParentFrame(message).value, rest);
    ParentFrameRoundTrip(message);
  }

  /** Any accepted parent frame is the encoding of the message it decodes to. */
  lemma ParentCanonical(stream: seq<Byte>)
    requires ReadParent(stream).Ok?
    ensures var Item(message, rest) := ReadParent(stream).value;
            WriteParent(message).Ok? && stream == WriteParent(message).value + rest
  {
    FrameCanonical(stream);
    var payload := TakeFrame(stream).value.value.payload;
    if |payload| >= 8 {
      SplitPayload(payload);
    }
  }

  lemma WorkerRoundTrip(message: WorkerMessage, rest: seq<Byte>)
    requires WriteWorker(message).Ok?
    ensures ReadWorker(WriteWorker(message).value + rest) == Ok(Item(message, rest))
  {
    FrameRoundTrip(WorkerFrame(message).value, rest);
    WorkerFrameRoundTrip(message);
  }

  lemma WorkerCanonical(stream: seq<Byte>)
    requires ReadWorker(stream).Ok?
    ensures var Item(message, rest) := ReadWorker(stream).value;
            WriteWorker(message).Ok? && stream == WriteWorker(message).value + rest
  {
    FrameCanonical(stream);
    var payload := TakeFrame(stream).value.value.payload;
    if |payload| >= 8 {
      SplitPayload(payload);
    }
  }

  /** A stream cut anywhere inside one written frame reads as a disconnection, never as a message. */
  lemma CutFrameIsDisconnected(frame: Frame, cut: nat)
    requires FrameBytes(frame).Ok? && cut < |FrameBytes(frame).value|
    ensures TakeFrame(FrameBytes(frame).value[..cut]) == Err(Disconnected)
  {
    var bytes := FrameBytes(frame).value;
    if HEADER_BYTES <= cut {
      WordBounds();
      BigEndianRoundTrip(|frame.payload|, 4);
      var length := BigEndian(|frame.payload|, 4);
      assert bytes == [frame.tag] + length + frame.payload;
      assert bytes[1..HEADER_BYTES] == length;
      assert bytes[..cut][1..HEADER_BYTES] == bytes[1..HEADER_BYTES];
    }
  }

  // Streams of messages

  function WriteParents(messages: seq<ParentMessage>): Result<seq<Byte>> {
    if messages == [] then Ok([])
    else match (WriteParent(messages[0]), WriteParents(messages[1..]))
         case (Ok(first), Ok(others)) => Ok(first + others)
         case (Err(error), _) => Err(error)
         case (_, Err(error)) => Err(error)
  }

  function ReadParents(stream: seq<Byte>): Result<seq<ParentMessage>>
    decreases |stream|
  {
    if stream == [] then Ok([])
    else match ReadParent(stream)
         case Err(error) => Err(error)
         case Ok(Item(message, rest)) =>
           match ReadParents(rest)
           case Err(error) => Err(error)
           case Ok(others) => Ok([message] + others)
  }

  function WriteWorkers(messages: seq<WorkerMessage>): Result<seq<Byte>> {
    if messages == [] then Ok([])
    else match (WriteWorker(messages[0]), WriteWorkers(messages[1..]))
         case (Ok(first), Ok(others)) => Ok(first + others)
         case (Err(error), _) => Err(error)
         case (_, Err(error)) => Err(error)
  }

  function ReadWorkers(stream: seq<Byte>): Result<seq<WorkerMessage>>
    decreases |stream|
  {
    if stream == [] then Ok([])
    else match ReadWorker(stream)
         case Err(error) => Err(error)
         case Ok(Item(message, rest)) =>
           match ReadWorkers(rest)
           case Err(error) => Err(error)
           case Ok(others) => Ok([message] + others)
  }

  /** A byte stream is the concatenation of written parent messages exactly when it decodes to them. */
  lemma {:induction false} ParentStreams(messages: seq<ParentMessage>, stream: seq<Byte>)
    ensures WriteParents(messages) == Ok(stream) <==> ReadParents(stream) == Ok(messages)
    decreases |stream|, |messages|
  {
    if WriteParents(messages) == Ok(stream) && messages != [] {
      var first, others := WriteParent(messages[0]).value, WriteParents(messages[1..]).value;
      ParentRoundTrip(messages[0], others);
      ParentStreams(messages[1..], others);
      assert [messages[0]] + messages[1..] == messages;
    }
    if ReadParents(stream) == Ok(messages) && stream != [] {
      ParentCanonical(stream);
      assert messages[1..] == ReadParents(ReadParent(stream).value.rest).value;
      ParentStreams(messages[1..], ReadParent(stream).value.rest);
    }
  }

  lemma {:induction false} WorkerStreams(messages: seq<WorkerMessage>, stream: seq<Byte>)
    ensures WriteWorkers(messages) == Ok(stream) <==> ReadWorkers(stream) == Ok(messages)
    decreases |stream|, |messages|
  {
    if WriteWorkers(messages) == Ok(stream) && messages != [] {
      var first, others := WriteWorker(messages[0]).value, WriteWorkers(messages[1..]).value;
      WorkerRoundTrip(messages[0], others);
      WorkerStreams(messages[1..], others);
      assert [messages[0]] + messages[1..] == messages;
    }
    if ReadWorkers(stream) == Ok(messages) && stream != [] {
      WorkerCanonical(stream);
      assert messages[1..] == ReadWorkers(ReadWorker(stream).value.rest).value;
      WorkerStreams(messages[1..], ReadWorker(stream).value.rest);
    }
  }

  /** A queue of messages the codec writes is one stream, whose first frame is the oldest message. */
  lemma {:induction false} ParentQueue(messages: seq<ParentMessage>)
    requires forall i :: 0 <= i < |messages| ==> WriteParent(messages[i]).Ok?
    ensures WriteParents(messages).Ok?
    ensures messages != [] ==>
              WriteParents(messages[1..]).Ok? &&
              ReadParent(WriteParents(messages).value) == Ok(Item(messages[0], WriteParents(messages[1..]).value))
    decreases |messages|
  {
    if messages != [] {
      ParentQueue(messages[1..]);
      ParentRoundTrip(messages[0], WriteParents(messages[1..]).value);
    }
  }

  lemma {:induction false} WorkerQueue(messages: seq<WorkerMessage>)
    requires forall i :: 0 <= i < |messages| ==> WriteWorker(messages[i]).Ok?
    ensures WriteWorkers(messages).Ok?
    ensures messages != [] ==>
              WriteWorkers(messages[1..]).Ok? &&
              ReadWorker(WriteWorkers(messages).value) == Ok(Item(messages[0], WriteWorkers(messages[1..]).value))
    decreases |messages|
  {
    if messages != [] {
      WorkerQueue(messages[1..]);
      WorkerRoundTrip(messages[0], WriteWorkers(messages[1..]).value);
    }
  }

  // ---------------------------------------------------------------------------
  // The readers and writers, over a shared byte pipe

  /** Eight bytes hold a prompt number. */
  lemma PromptFits(payload: seq<Byte>)
    requires |payload| >= 8
    ensures FromBigEndian(payload[..8]) <= U64_MAX
  {
    WordBounds();
    FromBigEndianRoundTrip(payload[..8]);
  }

  /** Rotating the number to the end and cutting it off leaves the text behind it. */
  lemma TailRotates(payload: seq<Byte>)
    requires |payload| >= 8
    ensures var rotated := payload[8..] + payload[..8];
      |rotated| == |payload| && rotated[..|rotated| - 8] == payload[8..]
  {
  }

  class Pipe {
    var bytes: seq<Byte>

    constructor (initial: seq<Byte>)
      ensures bytes == initial
    {
      bytes := initial;
    }

    method ReadExact(count: nat) returns (buffer: Result<seq<Byte>>)
      modifies this
      ensures buffer == if |old(bytes)| < count then Err(Disconnected) else Ok(old(bytes)[..count])
      ensures buffer.Ok? ==> bytes == old(bytes)[count..]
    {
      if |bytes| < count {
        bytes := [];
        return Err(Disconnected);
      }
      buffer := Ok(bytes[..count]);
      bytes := bytes[count..];
    }

    method WriteFrame(tag: Byte, payload: seq<Byte>) returns (error: Option<IpcError>)
      modifies this
      ensures match FrameBytes(Frame(tag, payload))
              case Ok(written) => error == None && bytes == old(bytes) + written
              case Err(failure) => error == Some(failure) && bytes == old(bytes)
    {
      if |payload| > MAX_FRAME_BYTES {
        return Some(LimitExceeded);
      }
      var header := [tag] + BigEndian(|payload|, 4);
      bytes := bytes + header;
      bytes := bytes + payload;
      return None;
    }

    method ReadFrame() returns (frame: Result<Frame>)
      modifies this
      ensures match TakeFrame(old(bytes))
              case Ok(Item(value, rest)) => frame == Ok(value) && bytes == rest
              case Err(failure) => frame == Err(failure)
    {
      var header := ReadExact(HEADER_BYTES);
      if header.Err? {
        return Err(header.error);
      }
      assert header.value[1..] == old(bytes)[1..HEADER_BYTES];
      var length := FromBigEndian(header.value[1..]);
      if length > MAX_FRAME_BYTES {
        return Err(LimitExceeded);
      }
      var payload := ReadExact(length);
      if payload.Err? {
        return Err(payload.error);
      }
      return Ok(Frame(header.value[0], payload.value));
    }

    method WriteParentMessage(message: ParentMessage) returns (error: Option<IpcError>)
      modifies this
      ensures match WriteParent(message)
              case Ok(written) => error == None && bytes == old(bytes) + written
              case Err(failure) => error == Some(failure) && bytes == old(bytes)
    {
      match message
      case Prepare(username) =>
        error := ValidateText(username, MAX_USERNAME_BYTES, false);
        if error == None {
          error := WriteFrame(PREPARE, username);
        }
      case Begin =>
        error := WriteFrame(BEGIN, []);
      case Answer(prompt, response) =>
        if |response| > MAX_ANSWER_BYTES || 0 in response {
          return Some(LimitExceeded);
        }
        var payload := BigEndian(prompt, 8);
        payload := payload + response;
        error := WriteFrame(ANSWER, payload);
    }

    method ReadParentMessage() returns (message: Result<ParentMessage>)
      modifies this
      ensures match ReadParent(old(bytes))
              case Ok(Item(value, rest)) => message == Ok(value) && bytes == rest
              case Err(failure) => message == Err(failure)
    {
      var frame := ReadFrame();
      if frame.Err? {
        return Err(frame.error);
      }
      var tag, payload := frame.value.tag, frame.value.payload;
      if tag == PREPARE {
        var invalid := ValidateText(payload, MAX_USERNAME_BYTES, false);
        return if invalid.Some? then Err(invalid.value) else Ok(Prepare(payload));
      } else if tag == BEGIN && payload == [] {
        return Ok(Begin);
      } else if tag == ANSWER && 8 <= |payload| <= MAX_ANSWER_BYTES + 8 {
        PromptFits(payload);
        TailRotates(payload);
        var prompt := FromBigEndian(payload[..8]);
        payload := payload[8..] + payload[..8];
        payload := payload[..|payload| - 8];
        if 0 in payload {
          return Err(InvalidFrame);
        }
        return Ok(Answer(prompt, payload));
      } else {
        return Err(InvalidFrame);
      }
    }

    method WriteWorkerMessage(message: WorkerMessage) returns (error: Option<IpcError>)
      modifies this
      ensures match WriteWorker(message)
              case Ok(written) => error == None && bytes == old(bytes) + written
              case Err(failure) => error == Some(failure) && bytes == old(bytes)
    {
      match message
      case Ready =>
        error := WriteFrame(READY, []);
      case PromptFrame(prompt, kind, text) =>
        error := ValidateText(text, MAX_PROMPT_BYTES, true);
        if error == None {
          var payload := BigEndian(prompt, 8);
          payload := payload + text;
          error := WriteFrame(if kind.SecretPrompt? then PROMPT_SECRET else PROMPT_VISIBLE, payload);
        }
      case MessageFrame(level, text) =>
        error := ValidateText(text, MAX_PROMPT_BYTES, true);
        if error == None {
          error := WriteFrame(if level.InfoLevel? then MESSAGE_INFO else MESSAGE_ERROR, text);
        }
      case AuthenticatedFrame =>
        error := WriteFrame(AUTHENTICATED, []);
      case RejectedFrame =>
        error := WriteFrame(REJECTED, []);
      case FatalFrame =>
        error := WriteFrame(FATAL, []);
    }

    method ReadWorkerMessage() returns (message: Result<WorkerMessage>)
      modifies this
      ensures match ReadWorker(old(bytes))
              case Ok(Item(value, rest)) => message == Ok(value) && bytes == rest
              case Err(failure) => message == Err(failure)
    {
      var frame := ReadFrame();
      if frame.Err? {
        return Err(frame.error);
      }
      var tag, payload := frame.value.tag, frame.value.payload;
      if tag == READY && payload == [] {
        return Ok(Ready);
      } else if (tag == PROMPT_SECRET || tag == PROMPT_VISIBLE) && |payload| >= 8 {
        PromptFits(payload);
        var prompt := FromBigEndian(payload[..8]);
        var text := payload[8..];
        var invalid := ValidateText(text, MAX_PROMPT_BYTES, true);
        if invalid.Some? {
          return Err(invalid.value);
        }
        return Ok(PromptFrame(prompt, if tag == PROMPT_SECRET then SecretPrompt else VisiblePrompt, text));
      } else if tag == MESSAGE_INFO || tag == MESSAGE_ERROR {
        var invalid := ValidateText(payload, MAX_PROMPT_BYTES, true);
        if invalid.Some? {
          return Err(invalid.value);
        }
        return Ok(MessageFrame(if tag == MESSAGE_INFO then InfoLevel else ErrorLevel, payload));
      } else if tag == AUTHENTICATED && payload == [] {
        return Ok(AuthenticatedFrame);
      } else if tag == REJECTED && payload == [] {
        return Ok(RejectedFrame);
      } else if tag == FATAL && payload == [] {
        return Ok(FatalFrame);
      } else {
        return Err(InvalidFrame);
      }
    }
  }
}

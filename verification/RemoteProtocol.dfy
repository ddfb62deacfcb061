/** The remote JSON-RPC worker: it owns the websocket, the map of waiting callers and the
    event channel of the client.

    The websocket is a sequence of frames chosen by the peer, and every write may fail.  A run is the
    sequence of inputs the worker and the client met.  What every caller is told, what goes on the wire
    and what the client reads are specified from that sequence alone, and proved of the worker's state. */
module RemoteProtocol {
  import opened Options

  datatype RequestId = StringId(text: string) | IntegerId(number: int)

  type Json = string

  datatype ErrorKind = InvalidInput | OtherError | BrokenPipe | InvalidData
                     | ConnectionAborted | UnexpectedEof | TimedOut

  /** Why the worker told its client that the connection is gone. */
  datatype Cause = WriteFailed | InvalidJsonRpc | PeerClosed(reason: string) | TransportFailed | StreamEnded

  datatype AppServerEvent =
    | ServerNotification(payload: Json)
    | ServerRequest(id: RequestId, payload: Json)
    | Disconnected(cause: Cause)

  /** A websocket frame after JSON decoding; `decoded` says whether the typed protocol knows the method. */
  datatype Frame =
    | Response(id: RequestId, result: Json)
    | ErrorResponse(id: RequestId, error: Json)
    | Notification(decoded: Option<Json>)
    | Request(id: RequestId, decoded: Option<Json>)
    | InvalidText
    | CloseFrame(reason: string)
    | OtherFrame
    | TransportFailure
    | EndOfStream

  datatype Command =
    | RequestCommand(id: RequestId, params: Json)
    | NotifyCommand(params: Json)
    | ResolveCommand(id: RequestId, result: Json)
    | RejectCommand(id: RequestId, error: Json)
    | ShutdownCommand

  /** What a caller is told. */
  datatype Reply = Result(result: Json) | RpcError(error: Json) | Sent | IoError(kind: ErrorKind)

  /** Messages written to the websocket; `at` is the run position of the command. */
  datatype Message =
    | RequestMessage(at: nat, id: RequestId)
    | NotificationMessage(params: Json)
    | ResponseMessage(id: RequestId, result: Json)
    | ErrorMessage(id: RequestId, error: Json)
    | UnsupportedMessage(id: RequestId)  // error -32601

  datatype Input =
    | Dequeue(command: Command, writeOk: bool)
    | SendersGone
    | Read(frame: Frame, writeOk: bool)
    | Poll
    | ConsumerGone

  function CauseKind(cause: Cause): ErrorKind {
    match cause
    case WriteFailed => BrokenPipe
    case InvalidJsonRpc => InvalidData
    case PeerClosed(_) => ConnectionAborted
    case TransportFailed => InvalidData
    case StreamEnded => UnexpectedEof
  }

  /** The event a frame stands for. */
  function Decoded(frame: Frame): Option<AppServerEvent> {
    match frame
    case Notification(Some(payload)) => Some(ServerNotification(payload))
    case Request(id, Some(payload)) => Some(ServerRequest(id, payload))
    case _ => None
  }

  /** Why a frame ends the connection. */
  function Fatal(frame: Frame): Option<Cause> {
    match frame
    case InvalidText => Some(InvalidJsonRpc)
    case CloseFrame(reason) => Some(PeerClosed(if reason == "" then "connection closed" else reason))
    case TransportFailure => Some(TransportFailed)
    case EndOfStream => Some(StreamEnded)
    case _ => None
  }

  // ---------------------------------------------------------------------------------------------
  // The worker's state and its steps
  // ---------------------------------------------------------------------------------------------

  datatype State = State(
    running: bool,
    pending: map<RequestId, nat>,    // id -> run position of the command waiting for it
    clock: nat,                      // inputs met so far
    replies: multiset<(nat, Reply)>,
    wire: seq<Message>,
    events: seq<AppServerEvent>,     // everything put in the event channel
    consumerOpen: bool,
    buffer: seq<AppServerEvent>,     // events of the handshake not read yet
    channel: seq<AppServerEvent>,    // events of the worker not read yet
    yielded: seq<AppServerEvent>     // what next_event returned
  )

  function Init(buffer: seq<AppServerEvent>): State {
    State(true, map[], 0, multiset{}, [], [], true, buffer, [], [])
  }

  function Tell(s: State, reply: Reply): State {
    s.(replies := s.replies + multiset{(s.clock, reply)})
  }

  function Write(s: State, message: Message): State {
    s.(wire := s.wire + [message])
  }

  function DeliverEvent(s: State, event: AppServerEvent): State {
    if s.consumerOpen then s.(events := s.events + [event], channel := s.channel + [event]) else s
  }

  function Drained(pending: map<RequestId, nat>, kind: ErrorKind): multiset<(nat, Reply)> {
    multiset(set id | id in pending :: (pending[id], IoError(kind)))
  }

  function Exit(s: State, kind: ErrorKind): State {
    s.(running := false, pending := map[], replies := s.replies + Drained(s.pending, kind))
  }

  function Disconnect(s: State, cause: Cause): State {
    Exit(DeliverEvent(s, Disconnected(cause)), CauseKind(cause))
  }

  function OnRequest(s: State, id: RequestId, writeOk: bool): State {
    if id in s.pending then Tell(s, IoError(InvalidInput))
    else if writeOk then Write(s, RequestMessage(s.clock, id)).(pending := s.pending[id := s.clock])
    else Disconnect(Tell(s, IoError(OtherError)), WriteFailed)
  }

  function OnCommand(s: State, command: Command, writeOk: bool): State {
    match command
    case RequestCommand(id, _) => OnRequest(s, id, writeOk)
    case NotifyCommand(params) => OnSend(s, NotificationMessage(params), writeOk)
    case ResolveCommand(id, result) => OnSend(s, ResponseMessage(id, result), writeOk)
    case RejectCommand(id, error) => OnSend(s, ErrorMessage(id, error), writeOk)
    case ShutdownCommand => Exit(Tell(s, if writeOk then Sent else IoError(OtherError)), BrokenPipe)
  }

  function OnSend(s: State, message: Message, writeOk: bool): State {
    if writeOk then Tell(Write(s, message), Sent) else Tell(s, IoError(OtherError))
  }

  function OnAnswer(s: State, id: RequestId, reply: Reply): State {
    if id in s.pending then
      s.(pending := s.pending - {id}, replies := s.replies + multiset{(s.pending[id], reply)})
    else s
  }

  function OnEvent(s: State, event: AppServerEvent): State {
    if s.consumerOpen then DeliverEvent(s, event) else Exit(s, BrokenPipe)
  }

  function OnFrame(s: State, frame: Frame, writeOk: bool): State {
    if Fatal(frame).Some? then Disconnect(s, Fatal(frame).value)
    else if Decoded(frame).Some? then OnEvent(s, Decoded(frame).value)
    else
      match frame
      case Response(id, result) => OnAnswer(s, id, Result(result))
      case ErrorResponse(id, error) => OnAnswer(s, id, RpcError(error))
      case Request(id, _) => if writeOk then Write(s, UnsupportedMessage(id)) else Disconnect(s, WriteFailed)
      case _ => s
  }

  function OnPoll(s: State): State {
    if s.buffer != [] then s.(buffer := s.buffer[1..], yielded := s.yielded + [s.buffer[0]])
    else if s.channel != [] then s.(channel := s.channel[1..], yielded := s.yielded + [s.channel[0]])
    else s
  }

  predicate CanMeet(s: State, input: Input) {
    if input == Poll || input == ConsumerGone then s.consumerOpen else s.running
  }

  function Meet(s: State, input: Input): State {
    match input
    case Dequeue(command, writeOk) => OnCommand(s, command, writeOk)
    case SendersGone => Exit(s, BrokenPipe)
    case Read(frame, writeOk) => OnFrame(s, frame, writeOk)
    case Poll => OnPoll(s)
    case ConsumerGone => s.(consumerOpen := false)
  }

  function Step(s: State, input: Input): State {
    Meet(s, input).(clock := s.clock + 1)
  }

  function Run(buffer: seq<AppServerEvent>, trace: seq<Input>): State {
    if trace == [] then Init(buffer) else Step(Run(buffer, trace[..|trace| - 1]), trace[|trace| - 1])
  }

  predicate Legal(buffer: seq<AppServerEvent>, trace: seq<Input>) {
    trace == [] ||
    (Legal(buffer, trace[..|trace| - 1]) && CanMeet(Run(buffer, trace[..|trace| - 1]), trace[|trace| - 1]))
  }

  // ---------------------------------------------------------------------------------------------
  // Specification from the run alone
  // ---------------------------------------------------------------------------------------------

  predicate Asks(input: Input, id: RequestId) {
    input.Dequeue? && input.command.RequestCommand? && input.command.id == id
  }

  predicate Answers(input: Input, id: RequestId) {
    input.Read? && (input.frame.Response? || input.frame.ErrorResponse?) && input.frame.id == id
  }

  /** The first answer to id at or after a position. */
  function FirstAnswer(trace: seq<Input>, from: nat, id: RequestId): (q: Option<nat>)
    ensures q.Some? ==> from <= q.value < |trace| && Answers(trace[q.value], id)
    ensures forall r :: from <= r < (if q.Some? then q.value else |trace|) ==> !Answers(trace[r], id)
  {
    if |trace| <= from then None
    else
      var n := |trace| - 1;
      var earlier := FirstAnswer(trace[..n], from, id);
      if earlier.Some? then earlier else if Answers(trace[n], id) then Some(n) else None
  }

  /** No request with this id is outstanding: every accepted one was answered. */
  predicate Vacant(trace: seq<Input>, id: RequestId)
    decreases |trace|
  {
    forall q :: 0 <= q < |trace| && Asks(trace[q], id) && Vacant(trace[..q], id) ==>
      FirstAnswer(trace, q + 1, id).Some?
  }

  /** The command at p was accepted under this id and is still unanswered. */
  predicate Waits(trace: seq<Input>, id: RequestId, p: nat) {
    p < |trace| && Asks(trace[p], id) && Vacant(trace[..p], id) && FirstAnswer(trace, p + 1, id).None?
  }

  /** The error the worker leaves with, if this input makes it leave. */
  function Stops(before: seq<Input>, input: Input): Option<ErrorKind> {
    match input
    case Dequeue(RequestCommand(id, _), writeOk) =>
      if !writeOk && Vacant(before, id) then Some(BrokenPipe) else None
    case Dequeue(ShutdownCommand, _) => Some(BrokenPipe)
    case SendersGone => Some(BrokenPipe)
    case Read(frame, writeOk) =>
      if Fatal(frame).Some? then Some(CauseKind(Fatal(frame).value))
      else if Decoded(frame).Some? then if ConsumerGone in before then Some(BrokenPipe) else None
      else if frame.Request? && !writeOk then Some(BrokenPipe)
      else None
    case _ => None
  }

  function ExitKind(trace: seq<Input>): Option<ErrorKind> {
    if trace == [] then None
    else
      var n := |trace| - 1;
      if ExitKind(trace[..n]).Some? then ExitKind(trace[..n]) else Stops(trace[..n], trace[n])
  }

  function AnswerOf(frame: Frame): Reply
    requires frame.Response? || frame.ErrorResponse?
  {
    if frame.Response? then Result(frame.result) else RpcError(frame.error)
  }

  /** What the caller of the command at p has been told by the end of the run. */
  function Outcome(trace: seq<Input>, p: nat): Option<Reply>
    requires p < |trace|
  {
    match trace[p]
    case Dequeue(RequestCommand(id, _), writeOk) =>
      if !Vacant(trace[..p], id) then Some(IoError(InvalidInput))
      else if !writeOk then Some(IoError(OtherError))
      else
        var q := FirstAnswer(trace, p + 1, id);
        if q.Some? then Some(AnswerOf(trace[q.value].frame))
        else if ExitKind(trace).Some? then Some(IoError(ExitKind(trace).value))
        else None
    case Dequeue(_, writeOk) => Some(if writeOk then Sent else IoError(OtherError))
    case _ => None
  }

  /** What an input puts on the wire. */
  function Writes(before: seq<Input>, input: Input): seq<Message> {
    match input
    case Dequeue(RequestCommand(id, _), true) =>
      if Vacant(before, id) then [RequestMessage(|before|, id)] else []
    case Dequeue(NotifyCommand(params), true) => [NotificationMessage(params)]
    case Dequeue(ResolveCommand(id, result), true) => [ResponseMessage(id, result)]
    case Dequeue(RejectCommand(id, error), true) => [ErrorMessage(id, error)]
    case Read(Request(id, None), true) => [UnsupportedMessage(id)]
    case _ => []
  }

  function Written(trace: seq<Input>): seq<Message> {
    if trace == [] then []
    else Written(trace[..|trace| - 1]) + Writes(trace[..|trace| - 1], trace[|trace| - 1])
  }

  function DecodedEvents(frames: seq<Frame>): seq<AppServerEvent> {
    if frames == [] then []
    else
      var last := Decoded(frames[|frames| - 1]);
      DecodedEvents(frames[..|frames| - 1]) + if last.Some? then [last.value] else []
  }

  /** The frames read while the client still listened. */
  function HeardFrames(trace: seq<Input>): seq<Frame> {
    if trace == [] then []
    else
      var n := |trace| - 1;
      HeardFrames(trace[..n]) + if trace[n].Read? && ConsumerGone !in trace[..n] then [trace[n].frame] else []
  }

  // ---------------------------------------------------------------------------------------------
  // Waiting callers
  // ---------------------------------------------------------------------------------------------

  lemma AppendAnswer(trace: seq<Input>, x: Input, from: nat, id: RequestId)
    ensures FirstAnswer(trace + [x], from, id) ==
      if from <= |trace| && FirstAnswer(trace, from, id).None? && Answers(x, id) then Some(|trace|)
      else FirstAnswer(trace, from, id)
  {
    assert (trace + [x])[..|trace|] == trace;
  }

  lemma {:induction false} AnswerStays(trace: seq<Input>, p: nat, from: nat, id: RequestId)
    requires p <= |trace| && FirstAnswer(trace[..p], from, id).Some?
    ensures FirstAnswer(trace, from, id).Some?
  {
    var q := FirstAnswer(trace[..p], from, id).value;
    assert Answers(trace[q], id);
  }

  lemma OneWaiter(trace: seq<Input>, id: RequestId, p: nat, q: nat)
    requires Waits(trace, id, p) && Waits(trace, id, q)
    ensures p == q
  {
    if p < q {
      assert trace[..q][..p] == trace[..p];
      AnswerStays(trace, q, p + 1, id);
    } else if q < p {
      assert trace[..p][..q] == trace[..q];
      AnswerStays(trace, p, q + 1, id);
    }
  }

  /** An answer ends a wait; a request begins one if the id is vacant. */
  lemma AppendWaits(trace: seq<Input>, x: Input, id: RequestId, p: nat)
    ensures Waits(trace + [x], id, p) <==>
      (Waits(trace, id, p) && !Answers(x, id)) || (p == |trace| && Asks(x, id) && Vacant(trace, id))
  {
    if p < |trace| {
      assert (trace + [x])[..p] == trace[..p];
      AppendAnswer(trace, x, p + 1, id);
    } else if p == |trace| {
      assert (trace + [x])[..p] == trace;
      AppendAnswer(trace, x, p + 1, id);
    }
  }

  lemma VacantIffNobodyWaits(trace: seq<Input>, id: RequestId)
    ensures Vacant(trace, id) <==> forall p :: !Waits(trace, id, p)
  {
    if !Vacant(trace, id) {
      var q :| 0 <= q < |trace| && Asks(trace[q], id) && Vacant(trace[..q], id) && FirstAnswer(trace, q + 1, id).None?;
      assert Waits(trace, id, q);
    }
  }

  /** The waiter map is the set of waiting commands. */
  ghost predicate Tracks(pending: map<RequestId, nat>, trace: seq<Input>) {
    forall id, p :: Waits(trace, id, p) <==> id in pending && pending[id] == p
  }

  lemma TracksVacant(pending: map<RequestId, nat>, trace: seq<Input>, id: RequestId)
    requires Tracks(pending, trace)
    ensures id in pending <==> !Vacant(trace, id)
  {
    VacantIffNobodyWaits(trace, id);
    if id in pending {
      assert Waits(trace, id, pending[id]);
    }
  }

  // ---------------------------------------------------------------------------------------------
  // The invariant
  // ---------------------------------------------------------------------------------------------

  /** Exactly the specified replies were given, each once. */
  ghost predicate Ledger(replies: multiset<(nat, Reply)>, trace: seq<Input>) {
    forall p: nat, r: Reply :: replies[(p, r)] == if p < |trace| && Outcome(trace, p) == Some(r) then 1 else 0
  }

  ghost predicate Invariant(s: State, trace: seq<Input>) {
    && s.clock == |trace|
    && (s.running <==> ExitKind(trace).None?)
    && (s.consumerOpen <==> ConsumerGone !in trace)
    && (s.running ==> Tracks(s.pending, trace))
    && (s.running ==> forall id :: id in s.pending ==>
         s.pending[id] < |trace| && trace[s.pending[id]].Dequeue? && trace[s.pending[id]].writeOk)
    && (!s.running ==> s.pending == map[])
    && Ledger(s.replies, trace)
  }

  lemma AppendExit(trace: seq<Input>, x: Input)
    ensures ExitKind(trace + [x]) == if ExitKind(trace).Some? then ExitKind(trace) else Stops(trace, x)
    ensures ConsumerGone in trace + [x] <==> ConsumerGone in trace || x == ConsumerGone
  {
    assert (trace + [x])[..|trace|] == trace;
  }

  /** One more input changes what a caller was told only if the caller still waited. */
  lemma AppendOutcome(trace: seq<Input>, x: Input, p: nat)
    requires p < |trace| && (ExitKind(trace).None? || x == Poll || x == ConsumerGone)
    ensures Outcome(trace + [x], p) ==
      if Outcome(trace, p).Some? || !trace[p].Dequeue? then Outcome(trace, p)
      else if Answers(x, trace[p].command.id) then Some(AnswerOf(x.frame))
      else if Stops(trace, x).Some? then Some(IoError(Stops(trace, x).value))
      else None
  {
    var more := trace + [x];
    assert more[..p] == trace[..p] && more[p] == trace[p];
    AppendExit(trace, x);
    if trace[p].Dequeue? && trace[p].command.RequestCommand? {
      AppendAnswer(trace, x, p + 1, trace[p].command.id);
    }
  }

  /** While the worker runs, the callers told nothing are the waiting ones. */
  lemma UntoldWaits(trace: seq<Input>, p: nat)
    requires ExitKind(trace).None? && p < |trace| && trace[p].Dequeue? && Outcome(trace, p).None?
    ensures trace[p].command.RequestCommand? && Waits(trace, trace[p].command.id, p)
  {
  }

  lemma WaitingUntold(trace: seq<Input>, id: RequestId, p: nat)
    requires ExitKind(trace).None? && Waits(trace, id, p) && trace[p].writeOk
    ensures Outcome(trace, p).None?
  {
  }

  /** What a command is told at once. */
  function OwnReply(before: seq<Input>, x: Input): Option<Reply> {
    match x
    case Dequeue(RequestCommand(id, _), writeOk) =>
      if !Vacant(before, id) then Some(IoError(InvalidInput)) else if !writeOk then Some(IoError(OtherError)) else None
    case Dequeue(_, writeOk) => Some(if writeOk then Sent else IoError(OtherError))
    case _ => None
  }

  lemma NewOutcome(trace: seq<Input>, x: Input)
    requires ExitKind(trace).None? || x == Poll || x == ConsumerGone
    ensures Outcome(trace + [x], |trace|) == OwnReply(trace, x)
  {
    assert (trace + [x])[..|trace|] == trace;
    AppendExit(trace, x);
  }

  function Single(p: nat, reply: Option<Reply>): multiset<(nat, Reply)> {
    if reply.Some? then multiset{(p, reply.value)} else multiset{}
  }

  /** The replies an input adds are those the specification adds. */
  ghost predicate Adds(added: multiset<(nat, Reply)>, trace: seq<Input>, x: Input) {
    forall p: nat, r: Reply :: added[(p, r)] ==
      if p <= |trace| && Outcome(trace + [x], p) == Some(r) && !(p < |trace| && Outcome(trace, p) == Some(r))
      then 1 else 0
  }

  lemma LedgerAppend(replies: multiset<(nat, Reply)>, added: multiset<(nat, Reply)>, trace: seq<Input>, x: Input)
    requires Ledger(replies, trace) && Adds(added, trace, x)
    requires ExitKind(trace).None? || x == Poll || x == ConsumerGone
    ensures Ledger(replies + added, trace + [x])
  {
    forall p: nat, r: Reply
      ensures (replies + added)[(p, r)] == if p < |trace + [x]| && Outcome(trace + [x], p) == Some(r) then 1 else 0
    {
      if p < |trace| {
        AppendOutcome(trace, x, p);
      }
    }
  }

  /** An input that neither answers a waiter nor stops the worker adds only its own reply. */
  lemma QuietAdds(s: State, trace: seq<Input>, x: Input)
    requires Invariant(s, trace)
    requires if s.running then Stops(trace, x).None? && forall id :: id in s.pending ==> !Answers(x, id)
             else x == Poll || x == ConsumerGone
    ensures Adds(Single(|trace|, OwnReply(trace, x)), trace, x)
  {
    NewOutcome(trace, x);
    forall p: nat | p < |trace|
      ensures Outcome(trace + [x], p) == Outcome(trace, p)
    {
      AppendOutcome(trace, x, p);
      if Outcome(trace, p).None? && trace[p].Dequeue? && s.running {
        UntoldWaits(trace, p);
      }
    }
  }

  lemma AnswerAdds(s: State, trace: seq<Input>, x: Input, id: RequestId)
    requires Invariant(s, trace) && s.running && Answers(x, id) && id in s.pending
    ensures Adds(multiset{(s.pending[id], AnswerOf(x.frame))}, trace, x)
  {
    var w := s.pending[id];
    NewOutcome(trace, x);
    forall p: nat | p < |trace|
      ensures Outcome(trace + [x], p) == if p == w then Some(AnswerOf(x.frame)) else Outcome(trace, p)
      ensures p == w ==> Outcome(trace, p).None?
    {
      AppendOutcome(trace, x, p);
      if p == w {
        assert Waits(trace, id, w);
        WaitingUntold(trace, id, w);
      } else if Outcome(trace, p).None? && trace[p].Dequeue? {
        UntoldWaits(trace, p);
      }
    }
  }

  /** On the way out every waiter is told the exit error, and the last command its own reply. */
  lemma ExitAdds(s: State, trace: seq<Input>, x: Input)
    requires Invariant(s, trace) && s.running && Stops(trace, x).Some?
    ensures Adds(Single(|trace|, OwnReply(trace, x)) + Drained(s.pending, Stops(trace, x).value), trace, x)
  {
    NewOutcome(trace, x);
    var kind := Stops(trace, x).value;
    var told := set id | id in s.pending :: (s.pending[id], IoError(kind));
    forall p: nat, r: Reply | p < |trace|
      ensures (p, r) in told <==> Outcome(trace + [x], p) == Some(r) && Outcome(trace, p) != Some(r)
    {
      AppendOutcome(trace, x, p);
      if (p, r) in told {
        var id :| id in s.pending && s.pending[id] == p && r == IoError(kind);
        assert Waits(trace, id, p);
        WaitingUntold(trace, id, p);
      } else if Outcome(trace, p).None? && trace[p].Dequeue? {
        UntoldWaits(trace, p);
        var id := trace[p].command.id;
        assert Waits(trace, id, p);
        assert (s.pending[id], IoError(kind)) in told;
      }
    }
    assert forall r: Reply :: (|trace|, r) !in told;
  }

  // Each step keeps the invariant.

  lemma TracksQuiet(pending: map<RequestId, nat>, trace: seq<Input>, x: Input)
    requires Tracks(pending, trace)
    requires forall id :: id in pending ==> !Answers(x, id)
    requires forall id :: Asks(x, id) ==> id in pending
    ensures Tracks(pending, trace + [x])
  {
    forall id, p
      ensures Waits(trace + [x], id, p) <==> id in pending && pending[id] == p
    {
      AppendWaits(trace, x, id, p);
      TracksVacant(pending, trace, id);
    }
  }

  lemma TracksAsk(pending: map<RequestId, nat>, trace: seq<Input>, x: Input, id: RequestId)
    requires Tracks(pending, trace) && Asks(x, id) && id !in pending
    ensures Tracks(pending[id := |trace|], trace + [x])
  {
    forall id', p
      ensures Waits(trace + [x], id', p) <==> id' in pending[id := |trace|] && pending[id := |trace|][id'] == p
    {
      AppendWaits(trace, x, id', p);
      TracksVacant(pending, trace, id');
    }
  }

  lemma TracksAnswer(pending: map<RequestId, nat>, trace: seq<Input>, x: Input, id: RequestId)
    requires Tracks(pending, trace) && Answers(x, id)
    ensures Tracks(pending - {id}, trace + [x])
  {
    forall id', p
      ensures Waits(trace + [x], id', p) <==> id' in pending - {id} && (pending - {id})[id'] == p
    {
      AppendWaits(trace, x, id', p);
    }
  }

  lemma ExitKeeps(s: State, trace: seq<Input>, x: Input, t: State)
    requires Invariant(s, trace) && s.running && Stops(trace, x).Some?
    requires !t.running && t.pending == map[] && t.clock == |trace| + 1 && t.consumerOpen == s.consumerOpen
    requires t.replies == s.replies + (Single(|trace|, OwnReply(trace, x)) + Drained(s.pending, Stops(trace, x).value))
    ensures Invariant(t, trace + [x])
  {
    AppendExit(trace, x);
    ExitAdds(s, trace, x);
    LedgerAppend(s.replies, Single(|trace|, OwnReply(trace, x)) + Drained(s.pending, Stops(trace, x).value), trace, x);
  }

  lemma QuietKeeps(s: State, trace: seq<Input>, x: Input, t: State)
    requires Invariant(s, trace) && s.running && Stops(trace, x).None?
    requires forall id :: id in s.pending ==> !Answers(x, id)
    requires forall id :: Asks(x, id) ==> id in s.pending
    requires t.running && t.pending == s.pending && t.clock == |trace| + 1 && t.consumerOpen == s.consumerOpen
    requires t.replies == s.replies + Single(|trace|, OwnReply(trace, x)) && x != ConsumerGone
    ensures Invariant(t, trace + [x])
  {
    AppendExit(trace, x);
    QuietAdds(s, trace, x);
    LedgerAppend(s.replies, Single(|trace|, OwnReply(trace, x)), trace, x);
    TracksQuiet(s.pending, trace, x);
  }

  lemma AskKeeps(s: State, trace: seq<Input>, x: Input, id: RequestId)
    requires Invariant(s, trace) && s.running && Asks(x, id)
    ensures Invariant(Step(s, x), trace + [x])
  {
    var t := Step(s, x);
    TracksVacant(s.pending, trace, id);
    if id in s.pending {
      QuietKeeps(s, trace, x, t);
    } else if x.writeOk {
      AppendExit(trace, x);
      QuietAdds(s, trace, x);
      LedgerAppend(s.replies, Single(|trace|, OwnReply(trace, x)), trace, x);
      assert s.replies + multiset{} == s.replies;
      TracksAsk(s.pending, trace, x, id);
    } else {
      assert t.replies == s.replies + (multiset{(|trace|, IoError(OtherError))} + Drained(s.pending, BrokenPipe));
      ExitKeeps(s, trace, x, t);
    }
  }

  lemma CommandKeeps(s: State, trace: seq<Input>, x: Input)
    requires Invariant(s, trace) && s.running && x.Dequeue? && !x.command.RequestCommand?
    ensures Invariant(Step(s, x), trace + [x])
  {
    var t := Step(s, x);
    if x.command.ShutdownCommand? {
      ExitKeeps(s, trace, x, t);
    } else {
      QuietKeeps(s, trace, x, t);
    }
  }

  lemma AnswerKeeps(s: State, trace: seq<Input>, x: Input, id: RequestId)
    requires Invariant(s, trace) && s.running && Answers(x, id)
    ensures Invariant(Step(s, x), trace + [x])
  {
    var t := Step(s, x);
    if id in s.pending {
      AppendExit(trace, x);
      AnswerAdds(s, trace, x, id);
      LedgerAppend(s.replies, multiset{(s.pending[id], AnswerOf(x.frame))}, trace, x);
      TracksAnswer(s.pending, trace, x, id);
    } else {
      QuietKeeps(s, trace, x, t);
    }
  }

  lemma FrameKeeps(s: State, trace: seq<Input>, x: Input)
    requires Invariant(s, trace) && s.running && x.Read? && !x.frame.Response? && !x.frame.ErrorResponse?
    ensures Invariant(Step(s, x), trace + [x])
  {
    var t := Step(s, x);
    if Stops(trace, x).Some? {
      assert t.replies == s.replies + (multiset{} + Drained(s.pending, Stops(trace, x).value));
      ExitKeeps(s, trace, x, t);
    } else {
      assert t.replies == s.replies + multiset{};
      QuietKeeps(s, trace, x, t);
    }
  }

  lemma ClientKeeps(s: State, trace: seq<Input>, x: Input)
    requires Invariant(s, trace) && (x == Poll || x == ConsumerGone)
    ensures Invariant(Step(s, x), trace + [x])
  {
    AppendExit(trace, x);
    QuietAdds(s, trace, x);
    LedgerAppend(s.replies, multiset{}, trace, x);
    assert s.replies + multiset{} == s.replies;
    if s.running {
      TracksQuiet(s.pending, trace, x);
    }
  }

  lemma StepKeepsInvariant(s: State, trace: seq<Input>, x: Input)
    requires Invariant(s, trace) && CanMeet(s, x)
    ensures Invariant(Step(s, x), trace + [x])
  {
    match x
    case Dequeue(command, _) =>
      if command.RequestCommand? {
        AskKeeps(s, trace, x, command.id);
      } else {
        CommandKeeps(s, trace, x);
      }
    case SendersGone =>
      assert Step(s, x).replies == s.replies + (multiset{} + Drained(s.pending, BrokenPipe));
      ExitKeeps(s, trace, x, Step(s, x));
    case Read(frame, _) =>
      if frame.Response? || frame.ErrorResponse? {
        AnswerKeeps(s, trace, x, frame.id);
      } else {
        FrameKeeps(s, trace, x);
      }
    case Poll => ClientKeeps(s, trace, x);
    case ConsumerGone => ClientKeeps(s, trace, x);
  }

  lemma InitInvariant(buffer: seq<AppServerEvent>)
    ensures Invariant(Init(buffer), [])
  {
  }

  lemma {:induction false} RunInvariant(buffer: seq<AppServerEvent>, trace: seq<Input>)
    requires Legal(buffer, trace)
    ensures Invariant(Run(buffer, trace), trace)
  {
    hide Invariant, Step, CanMeet, Init;
    if trace == [] {
      InitInvariant(buffer);
    } else {
      var n := |trace| - 1;
      RunInvariant(buffer, trace[..n]);
      StepKeepsInvariant(Run(buffer, trace[..n]), trace[..n], trace[n]);
      assert trace[..n] + [trace[n]] == trace;
    }
  }

  // ---------------------------------------------------------------------------------------------
  // The theorems
  // ---------------------------------------------------------------------------------------------

  /** Every dequeued command is told its specified outcome exactly once and nothing else; only accepted
      requests of a running worker are still waiting, and nothing is left pending at exit. */
  lemma EveryCallerToldOnce(buffer: seq<AppServerEvent>, trace: seq<Input>)
    requires Legal(buffer, trace)
    ensures var s := Run(buffer, trace);
      && (forall p: nat, r: Reply :: s.replies[(p, r)] == if p < |trace| && Outcome(trace, p) == Some(r) then 1 else 0)
      && (forall p :: 0 <= p < |trace| && trace[p].Dequeue? && Outcome(trace, p).None? ==>
           s.running && trace[p].command.RequestCommand? && Waits(trace, trace[p].command.id, p))
      && (s.running <==> ExitKind(trace).None?)
      && (!s.running ==> s.pending == map[])
  {
    RunInvariant(buffer, trace);
  }

  /** A request under an outstanding id is refused; the first waiter keeps its place and the wire is untouched. */
  lemma DuplicateHarmless(buffer: seq<AppServerEvent>, trace: seq<Input>, x: Input, id: RequestId, waiter: nat)
    requires Legal(buffer, trace) && Run(buffer, trace).running && Waits(trace, id, waiter) && Asks(x, id)
    ensures var s, t := Run(buffer, trace), Step(Run(buffer, trace), x);
      && Waits(trace + [x], id, waiter)
      && t.pending == s.pending && t.wire == s.wire && t.running
      && t.replies == s.replies + multiset{(|trace|, IoError(InvalidInput))}
  {
    RunInvariant(buffer, trace);
    AppendWaits(trace, x, id, waiter);
  }

  lemma LastStep(buffer: seq<AppServerEvent>, trace: seq<Input>, before: seq<Input>, x: Input)
    requires Legal(buffer, trace) && trace == before + [x]
    ensures Legal(buffer, before) && CanMeet(Run(buffer, before), x) && Invariant(Run(buffer, before), before)
    ensures Run(buffer, trace) == Step(Run(buffer, before), x)
  {
    assert trace[..|trace| - 1] == before;
    RunInvariant(buffer, before);
  }

  lemma WireAfter(s: State, trace: seq<Input>, x: Input)
    requires Invariant(s, trace) && CanMeet(s, x)
    ensures Step(s, x).wire == s.wire + Writes(trace, x)
  {
    if x.Dequeue? && x.command.RequestCommand? {
      TracksVacant(s.pending, trace, x.command.id);
    }
  }

  /** The wire carries each accepted request once, in order, with the other writes that succeeded. */
  lemma {:induction false} WireTheorem(buffer: seq<AppServerEvent>, trace: seq<Input>)
    requires Legal(buffer, trace)
    ensures Run(buffer, trace).wire == Written(trace)
  {
    if trace != [] {
      var before, x := trace[..|trace| - 1], trace[|trace| - 1];
      LastStep(buffer, trace, before, x);
      WireTheorem(buffer, before);
      WireAfter(Run(buffer, before), before, x);
    }
  }

  function UnsupportedIds(messages: seq<Message>): seq<RequestId> {
    if messages == [] then []
    else
      var last := messages[|messages| - 1];
      UnsupportedIds(messages[..|messages| - 1]) + if last.UnsupportedMessage? then [last.id] else []
  }

  /** The ids of the server requests nobody understands whose rejection could be written. */
  function UnknownRequests(trace: seq<Input>): seq<RequestId> {
    if trace == [] then []
    else UnknownRequests(trace[..|trace| - 1]) + Rejects(trace[|trace| - 1])
  }

  predicate RejectionLost(x: Input) {
    x.Read? && x.frame.Request? && x.frame.decoded.None? && !x.writeOk
  }

  function Rejects(x: Input): seq<RequestId> {
    if x.Read? && x.frame.Request? && x.frame.decoded.None? && x.writeOk then [x.frame.id] else []
  }

  lemma AppendWrites(wire: seq<Message>, before: seq<Input>, x: Input)
    ensures UnsupportedIds(wire + Writes(before, x)) == UnsupportedIds(wire) + Rejects(x)
  {
    var more := Writes(before, x);
    if more == [] {
      assert wire + more == wire;
    } else {
      assert (wire + more)[..|wire|] == wire;
    }
  }

  lemma {:induction false} WrittenRejections(trace: seq<Input>)
    ensures UnsupportedIds(Written(trace)) == UnknownRequests(trace)
  {
    if trace != [] {
      var n := |trace| - 1;
      WrittenRejections(trace[..n]);
      AppendWrites(Written(trace[..n]), trace[..n], trace[n]);
    }
  }

  /** Every undecodable server request gets exactly one -32601 reply with its id, unless that write fails. */
  lemma UnknownRequestsRejected(buffer: seq<AppServerEvent>, trace: seq<Input>)
    requires Legal(buffer, trace)
    ensures UnsupportedIds(Run(buffer, trace).wire) == UnknownRequests(trace)
  {
    WireTheorem(buffer, trace);
    WrittenRejections(trace);
  }

  /** A rejection that cannot be written ends the connection: nothing is read or dequeued after it. */
  lemma LostRejectionEnds(buffer: seq<AppServerEvent>, trace: seq<Input>, p: nat)
    requires Legal(buffer, trace) && p < |trace| && RejectionLost(trace[p])
    ensures !Run(buffer, trace).running
    ensures forall q :: p < q < |trace| ==> trace[q] == Poll || trace[q] == ConsumerGone
  {
    OnlyTheClientAfterExit(buffer, trace);
    StoppedForGood(trace, p);
    EveryCallerToldOnce(buffer, trace);
  }

  /** The worker has left before the input at q. */
  predicate LeftBefore(trace: seq<Input>, q: nat)
    requires q <= |trace|
  {
    ExitKind(trace[..q]).Some?
  }

  ghost predicate ClientAfterExit(trace: seq<Input>) {
    forall q :: 0 <= q < |trace| && LeftBefore(trace, q) ==> trace[q] == Poll || trace[q] == ConsumerGone
  }

  lemma {:induction false} OnlyTheClientAfterExit(buffer: seq<AppServerEvent>, trace: seq<Input>)
    requires Legal(buffer, trace)
    ensures ClientAfterExit(trace)
  {
    if trace != [] {
      var before, x := trace[..|trace| - 1], trace[|trace| - 1];
      LastStep(buffer, trace, before, x);
      OnlyTheClientAfterExit(buffer, before);
      hide Run, Legal, ExitKind;
      forall q | 0 <= q < |before| ensures LeftBefore(before, q) == LeftBefore(trace, q) {
        assert before[..q] == trace[..q];
      }
    }
  }

  lemma {:induction false} ExitStays(trace: seq<Input>, p: nat, q: nat)
    requires p < q <= |trace| && Stops(trace[..p], trace[p]).Some?
    ensures LeftBefore(trace, q)
    decreases q
  {
    hide Stops;
    assert trace[..q][..q - 1] == trace[..q - 1];
    if p < q - 1 {
      ExitStays(trace, p, q - 1);
    }
  }

  /** After the input that stops it the worker reads and dequeues nothing. */
  lemma StoppedForGood(trace: seq<Input>, p: nat)
    requires ClientAfterExit(trace) && p < |trace| && Stops(trace[..p], trace[p]).Some?
    ensures ExitKind(trace).Some?
    ensures forall q :: p < q < |trace| ==> trace[q] == Poll || trace[q] == ConsumerGone
  {
    hide Stops, ExitKind;
    forall q | p < q <= |trace| ensures LeftBefore(trace, q) {
      ExitStays(trace, p, q);
    }
    assert LeftBefore(trace, |trace|) && trace[..|trace|] == trace;
  }

  // What the client reads

  /** The cause a listening client is told by the input that stops the worker. */
  function Farewell(before: seq<Input>, x: Input): Option<Cause> {
    if ConsumerGone in before then None
    else
      match x
      case Dequeue(RequestCommand(id, _), writeOk) => if !writeOk && Vacant(before, id) then Some(WriteFailed) else None
      case Read(frame, writeOk) =>
        if Fatal(frame).Some? then Fatal(frame)
        else if frame.Request? && frame.decoded.None? && !writeOk then Some(WriteFailed)
        else None
      case _ => None
  }

  function LastWord(trace: seq<Input>): Option<Cause> {
    if trace == [] then None
    else
      var n := |trace| - 1;
      if LastWord(trace[..n]).Some? then LastWord(trace[..n]) else Farewell(trace[..n], trace[n])
  }

  /** The whole event stream of a run: decoded frames in wire order, then at most one Disconnected. */
  function Stream(frames: seq<Frame>, lastWord: Option<Cause>): seq<AppServerEvent> {
    DecodedEvents(frames) + if lastWord.Some? then [Disconnected(lastWord.value)] else []
  }

  lemma AppendHeard(trace: seq<Input>, x: Input)
    ensures HeardFrames(trace + [x]) == HeardFrames(trace) + if x.Read? && ConsumerGone !in trace then [x.frame] else []
    ensures LastWord(trace + [x]) == if LastWord(trace).Some? then LastWord(trace) else Farewell(trace, x)
  {
    assert (trace + [x])[..|trace|] == trace;
  }

  lemma AppendDecoded(frames: seq<Frame>, frame: Frame)
    ensures DecodedEvents(frames + [frame]) ==
      DecodedEvents(frames) + if Decoded(frame).Some? then [Decoded(frame).value] else []
  {
    assert (frames + [frame])[..|frames|] == frames;
  }

  ghost predicate StreamInvariant(s: State, buffer: seq<AppServerEvent>, trace: seq<Input>) {
    && s.events == Stream(HeardFrames(trace), LastWord(trace))
    && (s.running ==> LastWord(trace).None?)
    && s.yielded + (s.buffer + s.channel) == buffer + s.events
  }

  lemma DeliverKeepsOrder(s: State, buffer: seq<AppServerEvent>, event: AppServerEvent)
    requires s.yielded + (s.buffer + s.channel) == buffer + s.events
    ensures var t := DeliverEvent(s, event); t.yielded + (t.buffer + t.channel) == buffer + t.events
  {
    if s.consumerOpen {
      calc {
        s.yielded + (s.buffer + (s.channel + [event]));
        (s.yielded + (s.buffer + s.channel)) + [event];
        (buffer + s.events) + [event];
        buffer + (s.events + [event]);
      }
    }
  }

  lemma PollKeepsOrder(s: State, buffer: seq<AppServerEvent>)
    requires s.yielded + (s.buffer + s.channel) == buffer + s.events
    ensures var t := OnPoll(s); t.events == s.events && t.yielded + (t.buffer + t.channel) == buffer + t.events
  {
    var t := OnPoll(s);
    assert t.yielded + (t.buffer + t.channel) == s.yielded + (s.buffer + s.channel);
  }

  /** What an input makes the worker say to a listening client. */
  function Says(before: seq<Input>, x: Input): seq<AppServerEvent> {
    if ConsumerGone in before then []
    else if x.Read? && Decoded(x.frame).Some? then [Decoded(x.frame).value]
    else if Farewell(before, x).Some? then [Disconnected(Farewell(before, x).value)]
    else []
  }

  lemma WorkerSays(s: State, trace: seq<Input>, x: Input)
    requires Invariant(s, trace) && CanMeet(s, x)
    ensures Step(s, x).events == s.events + Says(trace, x)
    ensures Step(s, x).running ==> s.running && Farewell(trace, x).None?
    ensures !s.running ==> x == Poll || x == ConsumerGone
  {
    hide Ledger, Tracks, Drained, ExitKind;
    if x.Dequeue? && x.command.RequestCommand? {
      TracksVacant(s.pending, trace, x.command.id);
    }
  }

  lemma StreamAppend(trace: seq<Input>, x: Input)
    requires LastWord(trace).None? || x == Poll || x == ConsumerGone
    ensures Stream(HeardFrames(trace + [x]), LastWord(trace + [x])) ==
      Stream(HeardFrames(trace), LastWord(trace)) + Says(trace, x)
  {
    AppendHeard(trace, x);
    var frames := HeardFrames(trace);
    assert frames + [] == frames;
    if x.Read? && ConsumerGone !in trace {
      AppendDecoded(frames, x.frame);
    }
  }

  lemma EventsAfter(s: State, trace: seq<Input>, x: Input, t: State)
    requires Invariant(s, trace) && CanMeet(s, x) && t == Step(s, x)
    requires s.events == Stream(HeardFrames(trace), LastWord(trace)) && (s.running ==> LastWord(trace).None?)
    ensures t.events == Stream(HeardFrames(trace + [x]), LastWord(trace + [x]))
    ensures t.running ==> LastWord(trace + [x]).None?
  {
    WorkerSays(s, trace, x);
    StreamAppend(trace, x);
    AppendHeard(trace, x);
  }

  lemma OrderAfter(s: State, buffer: seq<AppServerEvent>, x: Input, t: State)
    requires CanMeet(s, x) && t == Step(s, x)
    requires s.yielded + (s.buffer + s.channel) == buffer + s.events
    ensures t.yielded + (t.buffer + t.channel) == buffer + t.events
  {
    if x == Poll {
      PollKeepsOrder(s, buffer);
    } else if x.Read? {
      if Fatal(x.frame).Some? {
        DeliverKeepsOrder(s, buffer, Disconnected(Fatal(x.frame).value));
      } else if Decoded(x.frame).Some? {
        DeliverKeepsOrder(s, buffer, Decoded(x.frame).value);
      } else {
        DeliverKeepsOrder(s, buffer, Disconnected(WriteFailed));
      }
    } else if x.Dequeue? {
      DeliverKeepsOrder(s, buffer, Disconnected(WriteFailed));
    }
  }

  lemma {:induction false} StreamHolds(buffer: seq<AppServerEvent>, trace: seq<Input>)
    requires Legal(buffer, trace)
    ensures StreamInvariant(Run(buffer, trace), buffer, trace)
  {
    if trace != [] {
      var before, x := trace[..|trace| - 1], trace[|trace| - 1];
      LastStep(buffer, trace, before, x);
      StreamHolds(buffer, before);
      EventsAfter(Run(buffer, before), before, x, Run(buffer, trace));
      OrderAfter(Run(buffer, before), buffer, x, Run(buffer, trace));
    }
  }

  lemma {:induction false} DecodedAreNotDisconnected(frames: seq<Frame>)
    ensures forall k :: 0 <= k < |DecodedEvents(frames)| ==> !DecodedEvents(frames)[k].Disconnected?
  {
    if frames != [] {
      DecodedAreNotDisconnected(frames[..|frames| - 1]);
    }
  }

  lemma {:induction false} DecodedConcat(a: seq<Frame>, b: seq<Frame>)
    ensures DecodedEvents(a + b) == DecodedEvents(a) + DecodedEvents(b)
  {
    if b == [] {
      assert a + b == a;
    } else {
      var n := |b| - 1;
      DecodedConcat(a, b[..n]);
      assert a + b == (a + b[..n]) + [b[n]];
      AppendDecoded(a + b[..n], b[n]);
    }
  }

  /** The frames that carry a notification or a request the typed protocol knows. */
  function KnownFrames(frames: seq<Frame>): seq<Frame> {
    if frames == [] then []
    else
      var last := frames[|frames| - 1];
      KnownFrames(frames[..|frames| - 1]) +
      if (last.Notification? || last.Request?) && last.decoded.Some? then [last] else []
  }

  /** Each event is what its frame carries. */
  ghost predicate Mirrors(events: seq<AppServerEvent>, frames: seq<Frame>) {
    && |events| == |frames|
    && forall k :: 0 <= k < |frames| ==>
         || (frames[k].Notification? && frames[k].decoded.Some?
             && events[k] == ServerNotification(frames[k].decoded.value))
         || (frames[k].Request? && frames[k].decoded.Some?
             && events[k] == ServerRequest(frames[k].id, frames[k].decoded.value))
  }

  /** Every known notification and request becomes one event with its content, in order, and nothing else does. */
  lemma {:induction false} DecodedMirrors(frames: seq<Frame>)
    ensures Mirrors(DecodedEvents(frames), KnownFrames(frames))
  {
    if frames != [] {
      DecodedMirrors(frames[..|frames| - 1]);
    }
  }

  /** What next_event yields is a prefix of the decoded server messages in wire order, handshake first,
      then at most one Disconnected, which comes last and only when the worker has left. */
  lemma ClientStream(handshake: seq<Frame>, trace: seq<Input>)
    requires Legal(DecodedEvents(handshake), trace)
    ensures var s, all := Run(DecodedEvents(handshake), trace), Stream(handshake + HeardFrames(trace), LastWord(trace));
      && s.yielded <= all
      && (s.buffer == [] && s.channel == [] ==> s.yielded == all)
      && (var known := KnownFrames(handshake + HeardFrames(trace));
          && |all| == |known| + (if LastWord(trace).Some? then 1 else 0)
          && Mirrors(all[..|known|], known))
      && (forall k :: 0 <= k < |all| && all[k].Disconnected? ==> k == |all| - 1 && !s.running)
  {
    hide Run, Legal, HeardFrames, LastWord, DecodedEvents;
    var h := DecodedEvents(handshake);
    var s := Run(h, trace);
    StreamHolds(h, trace);
    DecodedConcat(handshake, HeardFrames(trace));
    assert h + s.events == Stream(handshake + HeardFrames(trace), LastWord(trace));
    DecodedAreNotDisconnected(handshake + HeardFrames(trace));
    DecodedMirrors(handshake + HeardFrames(trace));
    var decoded := DecodedEvents(handshake + HeardFrames(trace));
    assert Stream(handshake + HeardFrames(trace), LastWord(trace))[..|decoded|] == decoded;
  }

  // How a connection ends

  /** The worker leaves on this input: everybody who waits is told this kind, a listening client this cause. */
  ghost predicate EndsWith(buffer: seq<AppServerEvent>, trace: seq<Input>, x: Input, kind: ErrorKind, cause: Cause) {
    var s, t := Run(buffer, trace), Run(buffer, trace + [x]);
    && !t.running && t.pending == map[]
    && t.events == s.events + (if ConsumerGone in trace then [] else [Disconnected(cause)])
    && forall id: RequestId, p: nat :: Waits(trace, id, p) ==> t.replies[(p, IoError(kind))] == 1
  }

  lemma DisconnectEnds(buffer: seq<AppServerEvent>, trace: seq<Input>, x: Input, cause: Cause)
    requires Legal(buffer, trace) && CanMeet(Run(buffer, trace), x) && x.Read?
    requires Meet(Run(buffer, trace), x) == Disconnect(Run(buffer, trace), cause)
    ensures EndsWith(buffer, trace, x, CauseKind(cause), cause)
  {
    hide Legal, Meet, Outcome, Waits, ExitKind, Vacant;
    var s, t, kind := Run(buffer, trace), Step(Run(buffer, trace), x), CauseKind(cause);
    RunInvariant(buffer, trace);
    StepKeepsInvariant(s, trace, x);
    assert (trace + [x])[..|trace|] == trace;
    assert t.replies == s.replies + Drained(s.pending, kind);
    forall id: RequestId, p: nat | Waits(trace, id, p) ensures t.replies[(p, IoError(kind))] == 1 {
      assert id in s.pending && s.pending[id] == p;
      assert (p, IoError(kind)) in Drained(s.pending, kind);
    }
  }

  /** Which frames end the connection, and how: an undecodable text and a transport failure as invalid data, a
      close as an abort with its reason, the end of the stream as such, a rejection that cannot be written as a
      broken pipe. */
  lemma EndingFrames(buffer: seq<AppServerEvent>, trace: seq<Input>, f: Frame, writeOk: bool)
    requires Legal(buffer, trace) && Run(buffer, trace).running
    ensures f.InvalidText? ==> EndsWith(buffer, trace, Read(f, writeOk), InvalidData, InvalidJsonRpc)
    ensures f.TransportFailure? ==> EndsWith(buffer, trace, Read(f, writeOk), InvalidData, TransportFailed)
    ensures f.CloseFrame? && f.reason != "" ==>
      EndsWith(buffer, trace, Read(f, writeOk), ConnectionAborted, PeerClosed(f.reason))
    ensures f.CloseFrame? && f.reason == "" ==>
      EndsWith(buffer, trace, Read(f, writeOk), ConnectionAborted, PeerClosed("connection closed"))
    ensures f.EndOfStream? ==> EndsWith(buffer, trace, Read(f, writeOk), UnexpectedEof, StreamEnded)
    ensures f.Request? && f.decoded.None? && !writeOk ==>
      EndsWith(buffer, trace, Read(f, writeOk), BrokenPipe, WriteFailed)
  {
    var x := Read(f, writeOk);
    hide EndsWith, Run, Legal, Disconnect;
    match f
    case InvalidText => DisconnectEnds(buffer, trace, x, InvalidJsonRpc);
    case TransportFailure => DisconnectEnds(buffer, trace, x, TransportFailed);
    case CloseFrame(reason) =>
      DisconnectEnds(buffer, trace, x, PeerClosed(if reason == "" then "connection closed" else reason));
    case EndOfStream => DisconnectEnds(buffer, trace, x, StreamEnded);
    case Request(id, decoded) =>
      if decoded.None? && !writeOk {
        DisconnectEnds(buffer, trace, x, WriteFailed);
      }
    case _ =>
  }

  /** With a listening client, no other frame ends it. */
  lemma HarmlessFrames(buffer: seq<AppServerEvent>, trace: seq<Input>, f: Frame, writeOk: bool)
    requires Legal(buffer, trace) && Run(buffer, trace).running && ConsumerGone !in trace
    requires !f.InvalidText? && !f.TransportFailure? && !f.CloseFrame? && !f.EndOfStream?
    requires f.Request? && f.decoded.None? ==> writeOk
    ensures Run(buffer, trace + [Read(f, writeOk)]).running
  {
    OpenExactly(buffer, trace);
    assert (trace + [Read(f, writeOk)])[..|trace|] == trace;
  }

  lemma OpenExactly(buffer: seq<AppServerEvent>, trace: seq<Input>)
    requires Legal(buffer, trace)
    ensures Run(buffer, trace).consumerOpen <==> ConsumerGone !in trace
  {
    RunInvariant(buffer, trace);
  }
}

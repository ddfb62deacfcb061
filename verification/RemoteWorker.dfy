/** The remote worker and its client as the source writes them: the handshake loop, the two branches of
    the worker's select loop, the final drain and next_event.  Each is proved to take exactly the step
    that RemoteProtocol specifies, so the theorems about runs hold of this code. */
module RemoteWorker {
  import opened Options
  import opened RemoteProtocol
  import AcceptedLines

  // ---------------------------------------------------------------------------------------------
  // The handshake
  // ---------------------------------------------------------------------------------------------

  const INITIALIZE_ID: RequestId := StringId("initialize")

  /** A frame and whether a write made in reaction to it would succeed. */
  datatype Delivery = Delivery(frame: Frame, writeOk: bool)

  datatype Handshake =
    | Connected(events: seq<AppServerEvent>, consumed: nat, version: Option<string>)
    | Refused(kind: ErrorKind)

  predicate IsSlash(c: char) {
    c == '/'
  }

  predicate IsWordChar(c: char) {
    !AcceptedLines.IsWhitespace(c)
  }

  /** The first position at or after `from` whose character satisfies the test, or the length. */
  function FirstWhere(s: string, from: nat, test: char -> bool): (n: nat)
    requires from <= |s|
    ensures from <= n <= |s| && (n < |s| ==> test(s[n])) && forall i :: from <= i < n ==> !test(s[i])
    decreases |s| - from
  {
    if from == |s| || test(s[from]) then from else FirstWhere(s, from + 1, test)
  }

  /** The server's version: the first word after the first slash of its user agent. */
  function ServerVersion(userAgent: string): Option<string> {
    var slash := FirstWhere(userAgent, 0, IsSlash);
    if slash == |userAgent| then None
    else
      var a := FirstWhere(userAgent, slash + 1, IsWordChar);
      if a == |userAgent| then None else Some(userAgent[a..FirstWhere(userAgent, a, AcceptedLines.IsWhitespace)])
  }

  /** The text from a to b is a whole word, and the first after the first slash. */
  ghost predicate VersionAt(s: string, slash: nat, a: nat, b: nat) {
    && slash < a < b <= |s| && s[slash] == '/' && (forall i :: 0 <= i < slash ==> s[i] != '/')
    && (forall i :: slash < i < a ==> AcceptedLines.IsWhitespace(s[i]))
    && (forall i :: a <= i < b ==> !AcceptedLines.IsWhitespace(s[i]))
    && (b < |s| ==> AcceptedLines.IsWhitespace(s[b]))
  }

  /** There is a version exactly if such a word exists, and then it is that word. */
  lemma VersionExactly(userAgent: string, v: string)
    ensures ServerVersion(userAgent) == Some(v) <==>
      exists slash: nat, a: nat, b: nat :: VersionAt(userAgent, slash, a, b) && v == userAgent[a..b]
  {
    var s := userAgent;
    var l := FirstWhere(s, 0, IsSlash);
    if l < |s| {
      var i := FirstWhere(s, l + 1, IsWordChar);
      if i < |s| {
        var j := FirstWhere(s, i, AcceptedLines.IsWhitespace);
        assert VersionAt(s, l, i, j);
      }
    }
    forall slash: nat, a: nat, b: nat | VersionAt(s, slash, a, b)
      ensures ServerVersion(s) == Some(s[a..b])
    {
      VersionHere(s, slash, a, b);
    }
  }

  lemma VersionHere(s: string, slash: nat, a: nat, b: nat)
    requires VersionAt(s, slash, a, b)
    ensures ServerVersion(s) == Some(s[a..b])
  {
    FirstWhereIs(s, 0, slash, IsSlash);
    FirstWhereIs(s, slash + 1, a, IsWordChar);
    FirstWhereIs(s, a, b, AcceptedLines.IsWhitespace);
  }

  lemma FirstWhereIs(s: string, from: nat, n: nat, test: char -> bool)
    requires from <= n <= |s| && (n < |s| ==> test(s[n])) && forall i :: from <= i < n ==> !test(s[i])
    ensures FirstWhere(s, from, test) == n
  {
  }

  predicate Unknown(frame: Frame) {
    frame.Request? && frame.decoded.None?
  }

  /** The handshake goes on after this frame. */
  predicate Passes(d: Delivery) {
    match d.frame
    case Response(id, _) => id != INITIALIZE_ID
    case ErrorResponse(id, _) => id != INITIALIZE_ID
    case Notification(_) => true
    case Request(_, decoded) => decoded.Some? || d.writeOk
    case OtherFrame => true
    case _ => false
  }

  /** Which frames the handshake passes over, frame by frame: all but the answer to initialize, a request whose
      rejection cannot be written, and the ends of the connection. */
  ghost predicate GoesOn(frame: Frame, writeOk: bool) {
    || frame.Notification? || frame.OtherFrame?
    || ((frame.Response? || frame.ErrorResponse?) && frame.id != StringId("initialize"))
    || (frame.Request? && (frame.decoded.Some? || writeOk))
  }

  function RefusalKind(frame: Frame): ErrorKind {
    match frame
    case CloseFrame(_) => ConnectionAborted
    case EndOfStream => UnexpectedEof
    case _ => OtherError
  }

  function FramesOf(ds: seq<Delivery>): seq<Frame> {
    if ds == [] then [] else FramesOf(ds[..|ds| - 1]) + [ds[|ds| - 1].frame]
  }

  function UnknownIds(frames: seq<Frame>): seq<RequestId> {
    if frames == [] then []
    else
      var last := frames[|frames| - 1];
      UnknownIds(frames[..|frames| - 1]) + if Unknown(last) then [last.id] else []
  }

  function VersionIn(response: Json, userAgent: Json -> Option<string>): Option<string> {
    if userAgent(response).Some? then ServerVersion(userAgent(response).value) else None
  }

  lemma AppendDelivery(ds: seq<Delivery>, d: Delivery)
    ensures FramesOf(ds + [d]) == FramesOf(ds) + [d.frame]
    ensures DecodedEvents(FramesOf(ds + [d])) ==
      DecodedEvents(FramesOf(ds)) + if Decoded(d.frame).Some? then [Decoded(d.frame).value] else []
    ensures UnknownIds(FramesOf(ds + [d])) == UnknownIds(FramesOf(ds)) + if Unknown(d.frame) then [d.frame.id] else []
  {
    assert (ds + [d])[..|ds|] == ds;
    var frames := FramesOf(ds);
    AppendDecoded(frames, d.frame);
    assert (frames + [d.frame])[..|frames|] == frames;
  }

  method Absorb(frame: Frame, pendingEvents: seq<AppServerEvent>, rejected: seq<RequestId>)
    returns (events: seq<AppServerEvent>, ids: seq<RequestId>)
    ensures events == pendingEvents + if Decoded(frame).Some? then [Decoded(frame).value] else []
    ensures ids == rejected + if Unknown(frame) then [frame.id] else []
  {
    events, ids := pendingEvents, rejected;
    match frame {
      case Notification(Some(payload)) => events := events + [ServerNotification(payload)];
      case Request(id, Some(payload)) => events := events + [ServerRequest(id, payload)];
      case Request(id, None) => ids := ids + [id];
      case _ =>
    }
  }

  /** Buffers events and rejects unknown requests up to the frame that decides the handshake. */
  method PassFrames(ds: seq<Delivery>)
    returns (pendingEvents: seq<AppServerEvent>, rejected: seq<RequestId>, decisive: nat)
    ensures decisive <= |ds| && (forall j :: 0 <= j < decisive ==> Passes(ds[j]))
    ensures decisive < |ds| ==> !Passes(ds[decisive])
    ensures rejected == UnknownIds(FramesOf(ds[..decisive])) && pendingEvents == DecodedEvents(FramesOf(ds[..decisive]))
  {
    hide FramesOf, DecodedEvents, UnknownIds, Passes, Decoded, Unknown;
    pendingEvents, rejected, decisive := [], [], 0;
    NoFrames(ds);
    while decisive < |ds| && Passes(ds[decisive])
      invariant decisive <= |ds| && forall j :: 0 <= j < decisive ==> Passes(ds[j])
      invariant rejected == UnknownIds(FramesOf(ds[..decisive]))
      invariant pendingEvents == DecodedEvents(FramesOf(ds[..decisive]))
    {
      OneMoreFrame(ds, decisive);
      pendingEvents, rejected := Absorb(ds[decisive].frame, pendingEvents, rejected);
      decisive := decisive + 1;
    }
  }

  /** A frame that decides the handshake is the answer to initialize or refuses it, with this kind. */
  lemma Deciding(d: Delivery)
    ensures Passes(d) <==> GoesOn(d.frame, d.writeOk)
    ensures !Passes(d) && d.frame.Response? ==> d.frame.id == INITIALIZE_ID
    ensures RefusalKind(d.frame) ==
      if d.frame.CloseFrame? then ConnectionAborted else if d.frame.EndOfStream? then UnexpectedEof else OtherError
  {
  }

  /** Waits for the initialize response: buffers the events that come first, rejects the requests nobody
      understands, and fails on the first frame that cannot belong to a handshake.  Deliveries that run out
      stand for the timeout; `userAgent` looks that field up in a response. */
  method InitializeRemoteConnection(ds: seq<Delivery>, helloOk: bool, initializedOk: bool,
                                    userAgent: Json -> Option<string>)
    returns (result: Handshake, rejected: seq<RequestId>, decisive: nat)
    ensures decisive <= |ds| && forall j :: 0 <= j < decisive ==> Passes(ds[j])
    ensures !helloOk ==> result == Refused(OtherError) && decisive == 0
    ensures helloOk && decisive < |ds| ==> !Passes(ds[decisive])
    ensures rejected == UnknownIds(FramesOf(ds[..decisive]))
    ensures forall j :: 0 <= j < decisive ==> GoesOn(ds[j].frame, ds[j].writeOk)
    ensures helloOk && decisive < |ds| ==> !GoesOn(ds[decisive].frame, ds[decisive].writeOk)
    ensures helloOk && decisive < |ds| ==>
      && (ds[decisive].frame.CloseFrame? ==> result == Refused(ConnectionAborted))
      && (ds[decisive].frame.EndOfStream? ==> result == Refused(UnexpectedEof))
      && (ds[decisive].frame.InvalidText? || ds[decisive].frame.TransportFailure? ==> result == Refused(OtherError))
      && (ds[decisive].frame.ErrorResponse? || ds[decisive].frame.Request? ==> result == Refused(OtherError))
    ensures forall id :: multiset(rejected)[id] == multiset(FramesOf(ds[..decisive]))[Request(id, None)]
    ensures result.Connected? ==> Mirrors(result.events, KnownFrames(FramesOf(ds[..decisive])))
    ensures helloOk && decisive == |ds| ==> result == Refused(TimedOut)
    ensures helloOk && decisive < |ds| && !(ds[decisive].frame.Response? && ds[decisive].frame.id == INITIALIZE_ID) ==>
      result == Refused(RefusalKind(ds[decisive].frame))
    ensures helloOk && decisive < |ds| && ds[decisive].frame.Response? && ds[decisive].frame.id == INITIALIZE_ID ==>
      result == if initializedOk
                then Connected(DecodedEvents(FramesOf(ds[..decisive])), decisive + 1,
                               VersionIn(ds[decisive].frame.result, userAgent))
                else Refused(OtherError)
  {
    hide FramesOf, DecodedEvents, UnknownIds, VersionIn, Passes, GoesOn, RefusalKind, Mirrors, KnownFrames;
    if !helloOk {
      NoFrames(ds);
      return Refused(OtherError), [], 0;
    }
    var pendingEvents;
    pendingEvents, rejected, decisive := PassFrames(ds);
    forall j | 0 <= j < |ds| ensures Passes(ds[j]) <==> GoesOn(ds[j].frame, ds[j].writeOk) {
      Deciding(ds[j]);
    }
    DecodedMirrors(FramesOf(ds[..decisive]));
    forall id ensures multiset(rejected)[id] == multiset(FramesOf(ds[..decisive]))[Request(id, None)] {
      UnknownCounted(FramesOf(ds[..decisive]), id);
    }
    if decisive == |ds| {
      return Refused(TimedOut), rejected, decisive;
    }
    var frame := ds[decisive].frame;
    Deciding(ds[decisive]);
    if frame.Response? {
      var version := VersionIn(frame.result, userAgent);
      result := if initializedOk then Connected(pendingEvents, decisive + 1, version) else Refused(OtherError);
    } else {
      result := Refused(RefusalKind(frame));
    }
  }

  lemma NoFrames(ds: seq<Delivery>)
    ensures FramesOf(ds[..0]) == [] && UnknownIds([]) == [] && DecodedEvents([]) == []
  {
    assert ds[..0] == [];
  }

  lemma {:induction false} UnknownCounted(frames: seq<Frame>, id: RequestId)
    ensures multiset(UnknownIds(frames))[id] == multiset(frames)[Request(id, None)]
  {
    if frames != [] {
      var n := |frames| - 1;
      assert frames == frames[..n] + [frames[n]];
      UnknownCounted(frames[..n], id);
    }
  }

  lemma OneMoreFrame(ds: seq<Delivery>, k: nat)
    requires k < |ds|
    ensures var frame, before, after := ds[k].frame, FramesOf(ds[..k]), FramesOf(ds[..k + 1]);
      && DecodedEvents(after) == DecodedEvents(before) + (if Decoded(frame).Some? then [Decoded(frame).value] else [])
      && UnknownIds(after) == UnknownIds(before) + (if Unknown(frame) then [frame.id] else [])
  {
    hide Decoded, Unknown;
    assert ds[..k + 1] == ds[..k] + [ds[k]];
    AppendDelivery(ds[..k], ds[k]);
  }

  // ---------------------------------------------------------------------------------------------
  // The worker and its client
  // ---------------------------------------------------------------------------------------------

  ghost predicate Injective(pending: map<RequestId, nat>) {
    forall i, j :: i in pending && j in pending && pending[i] == pending[j] ==> i == j
  }

  ghost predicate Before(pending: map<RequestId, nat>, clock: nat) {
    forall id :: id in pending ==> pending[id] < clock
  }

  lemma DrainOne(pending: map<RequestId, nat>, id: RequestId, kind: ErrorKind)
    requires id in pending && Injective(pending)
    ensures Drained(pending, kind) == Drained(pending - {id}, kind) + multiset{(pending[id], IoError(kind))}
  {
    var rest := pending - {id};
    var all := set i | i in pending :: (pending[i], IoError(kind));
    var others := set i | i in rest :: (rest[i], IoError(kind));
    var one := (pending[id], IoError(kind));
    assert one !in others;
    forall x
      ensures x in all <==> x in others || x == one
    {
      if x in all && x != one {
        var i :| i in pending && x == (pending[i], IoError(kind));
        assert i in rest;
      }
      if x in others {
        var i :| i in rest && x == (rest[i], IoError(kind));
        assert i in pending;
      }
    }
    assert all == others + {one};
  }

  /** Tells the exit error to everybody who waits, in any order. */
  method DrainWaiters(pending: map<RequestId, nat>, before: multiset<(nat, Reply)>, kind: ErrorKind)
    returns (replies: multiset<(nat, Reply)>)
    requires Injective(pending)
    ensures replies == before + Drained(pending, kind)
  {
    var waiting := pending;
    replies := before;
    while waiting != map[]
      invariant Injective(waiting)
      invariant replies + Drained(waiting, kind) == before + Drained(pending, kind)
      decreases |waiting|
    {
      var id :| id in waiting;
      DrainOne(waiting, id, kind);
      replies := replies + multiset{(waiting[id], IoError(kind))};
      waiting := waiting - {id};
    }
    assert Drained(map[], kind) == multiset{};
  }

  class Worker {
    var running: bool
    var pendingRequests: map<RequestId, nat>
    var clock: nat
    var replies: multiset<(nat, Reply)>
    var wire: seq<Message>
    var consumerOpen: bool
    var pendingEvents: seq<AppServerEvent>
    var channel: seq<AppServerEvent>
    ghost var events: seq<AppServerEvent>
    ghost var yielded: seq<AppServerEvent>

    ghost function View(): State
      reads this
    {
      State(running, pendingRequests, clock, replies, wire, events, consumerOpen, pendingEvents, channel, yielded)
    }

    ghost predicate Valid()
      reads this
    {
      Before(pendingRequests, clock) && Injective(pendingRequests)
    }

    constructor (handshakeEvents: seq<AppServerEvent>)
      ensures Valid() && View() == Init(handshakeEvents)
    {
      running, pendingRequests, clock, replies, wire := true, map[], 0, multiset{}, [];
      consumerOpen, pendingEvents, channel := true, handshakeEvents, [];
      events, yielded := [], [];
    }

    method Deliver(event: AppServerEvent) returns (ok: bool)
      modifies this`channel, this`events
      ensures ok == consumerOpen && View() == DeliverEvent(old(View()), event)
    {
      ok := consumerOpen;
      if consumerOpen {
        channel, events := channel + [event], events + [event];
      }
    }

    /** Leaves the loop. */
    method Leave(exitError: Option<ErrorKind>)
      requires Valid()
      modifies this`running, this`pendingRequests, this`replies
      ensures Valid() && View() == Exit(old(View()), if exitError.Some? then exitError.value else BrokenPipe)
    {
      var kind := if exitError.Some? then exitError.value else BrokenPipe;
      replies := DrainWaiters(pendingRequests, replies, kind);
      running, pendingRequests := false, map[];
    }

    method Fail(cause: Cause)
      requires Valid()
      modifies this
      ensures Valid() && View() == Disconnect(old(View()), cause)
    {
      var _ := Deliver(Disconnected(cause));
      Leave(Some(CauseKind(cause)));
    }

    method HandleRequest(id: RequestId, writeOk: bool)
      requires Valid() && running
      modifies this
      ensures Before(pendingRequests, clock + 1) && Injective(pendingRequests)
      ensures View() == OnRequest(old(View()), id, writeOk)
    {
      if id in pendingRequests {
        replies := replies + multiset{(clock, IoError(InvalidInput))};
        return;
      }
      pendingRequests := pendingRequests[id := clock];
      if writeOk {
        wire := wire + [RequestMessage(clock, id)];
      } else {
        assert pendingRequests - {id} == old(pendingRequests);
        FailRequest(id);
      }
    }

    method FailRequest(id: RequestId)
      requires running && id in pendingRequests && pendingRequests[id] == clock
      requires Before(pendingRequests - {id}, clock) && Injective(pendingRequests - {id})
      modifies this
      ensures Valid()
      ensures View() ==
        Disconnect(Tell(old(View()).(pending := old(pendingRequests) - {id}), IoError(OtherError)), WriteFailed)
    {
      replies := replies + multiset{(pendingRequests[id], IoError(OtherError))};
      pendingRequests := pendingRequests - {id};
      Fail(WriteFailed);
    }

    method Send(message: Message, writeOk: bool)
      modifies this`wire, this`replies
      ensures View() == OnSend(old(View()), message, writeOk)
    {
      if writeOk {
        wire := wire + [message];
        replies := replies + multiset{(clock, Sent)};
      } else {
        replies := replies + multiset{(clock, IoError(OtherError))};
      }
    }

    method HandleCommand(command: Command, writeOk: bool)
      requires Valid() && running
      modifies this
      ensures Valid() && View() == Step(old(View()), Dequeue(command, writeOk))
    {
      if command.RequestCommand? {
        HandleRequest(command.id, writeOk);
      } else {
        DispatchCommand(command, writeOk);
      }
      clock := clock + 1;
    }

    method DispatchCommand(command: Command, writeOk: bool)
      requires Valid() && running && !command.RequestCommand?
      modifies this
      ensures Valid() && View() == OnCommand(old(View()), command, writeOk)
    {
      match command {
        case NotifyCommand(params) => Send(NotificationMessage(params), writeOk);
        case ResolveCommand(id, result) => Send(ResponseMessage(id, result), writeOk);
        case RejectCommand(id, error) => Send(ErrorMessage(id, error), writeOk);
        case ShutdownCommand =>
          replies := replies + multiset{(clock, if writeOk then Sent else IoError(OtherError))};
          Leave(None);
      }
    }

    method SendersDropped()
      requires Valid() && running
      modifies this
      ensures Valid() && View() == Step(old(View()), SendersGone)
    {
      Leave(None);
      clock := clock + 1;
    }

    method Answer(id: RequestId, reply: Reply)
      requires Valid()
      modifies this`pendingRequests, this`replies
      ensures Valid() && View() == OnAnswer(old(View()), id, reply)
    {
      if id in pendingRequests {
        replies := replies + multiset{(pendingRequests[id], reply)};
        pendingRequests := pendingRequests - {id};
      }
    }

    method Forward(event: AppServerEvent)
      requires Valid()
      modifies this
      ensures Valid() && View() == OnEvent(old(View()), event)
    {
      var ok := Deliver(event);
      if !ok {
        Leave(None);
      }
    }

    method HandleServerRequest(id: RequestId, decoded: Option<Json>, writeOk: bool)
      requires Valid() && running
      modifies this
      ensures Valid() && View() == OnFrame(old(View()), Request(id, decoded), writeOk)
    {
      if decoded.Some? {
        Forward(ServerRequest(id, decoded.value));
      } else if writeOk {
        wire := wire + [UnsupportedMessage(id)];
      } else {
        Fail(WriteFailed);
      }
    }

    /** The frames that end the connection. */
    method HandleEnd(frame: Frame)
      requires Valid() && running && Fatal(frame).Some?
      modifies this
      ensures Valid() && View() == Disconnect(old(View()), Fatal(frame).value)
    {
      var cause :=
        if frame.InvalidText? then InvalidJsonRpc
        else if frame.CloseFrame? then PeerClosed(if frame.reason == "" then "connection closed" else frame.reason)
        else if frame.TransportFailure? then TransportFailed
        else StreamEnded;
      Fail(cause);
    }

    method HandleFrame(frame: Frame, writeOk: bool)
      requires Valid() && running
      modifies this
      ensures Valid() && View() == Step(old(View()), Read(frame, writeOk))
      ensures frame.Notification? && frame.decoded.Some? && old(consumerOpen) ==>
        channel == old(channel) + [ServerNotification(frame.decoded.value)]
      ensures frame.Request? && frame.decoded.Some? && old(consumerOpen) ==>
        channel == old(channel) + [ServerRequest(frame.id, frame.decoded.value)]
    {
      DispatchFrame(frame, writeOk);
      clock := clock + 1;
    }

    method DispatchFrame(frame: Frame, writeOk: bool)
      requires Valid() && running
      modifies this
      ensures Valid() && View() == OnFrame(old(View()), frame, writeOk)
    {
      if frame.Response? {
        Answer(frame.id, Result(frame.result));
      } else if frame.ErrorResponse? {
        Answer(frame.id, RpcError(frame.error));
      } else if frame.Notification? {
        if frame.decoded.Some? {
          Forward(ServerNotification(frame.decoded.value));
        }
      } else if frame.Request? {
        HandleServerRequest(frame.id, frame.decoded, writeOk);
      } else if !frame.OtherFrame? {
        HandleEnd(frame);
      }
    }

    /** The client drops its end of the event channel. */
    method Hangup()
      requires Valid() && consumerOpen
      modifies this
      ensures Valid() && View() == Step(old(View()), ConsumerGone)
    {
      consumerOpen := false;
      clock := clock + 1;
    }

    /** None means that nothing can be read now. */
    method NextEvent() returns (event: Option<AppServerEvent>)
      requires Valid() && consumerOpen
      modifies this
      ensures Valid() && View() == Step(old(View()), Poll)
      ensures yielded == old(yielded) + if event.Some? then [event.value] else []
    {
      event := None;
      if pendingEvents != [] {
        event := Some(pendingEvents[0]);
        pendingEvents := pendingEvents[1..];
      } else if channel != [] {
        event := Some(channel[0]);
        channel := channel[1..];
      }
      if event.Some? {
        yielded := yielded + [event.value];
      }
      clock := clock + 1;
    }
  }

  // ---------------------------------------------------------------------------------------------
  // A whole session
  // ---------------------------------------------------------------------------------------------

  /** Meets one input. */
  method MeetInput(worker: Worker, input: Input)
    requires worker.Valid() && CanMeet(worker.View(), input)
    modifies worker
    ensures worker.Valid() && worker.View() == Step(old(worker.View()), input)
  {
    hide Step;
    match input {
      case Dequeue(command, writeOk) => worker.HandleCommand(command, writeOk);
      case SendersGone => worker.SendersDropped();
      case Read(frame, writeOk) => worker.HandleFrame(frame, writeOk);
      case Poll => var _ := worker.NextEvent();
      case ConsumerGone => worker.Hangup();
    }
  }

  lemma OneMoreInput(buffer: seq<AppServerEvent>, trace: seq<Input>, x: Input)
    requires Legal(buffer, trace) && CanMeet(Run(buffer, trace), x)
    ensures Legal(buffer, trace + [x]) && Run(buffer, trace + [x]) == Step(Run(buffer, trace), x)
  {
    hide Step, CanMeet;
    assert (trace + [x])[..|trace|] == trace;
  }

  /** Connects, then meets the inputs that are possible, in order.  What the client reads, from the first frame of
      the handshake to the end, is a prefix of the decoded server messages in wire order, then at most one
      Disconnected, which is last. */
  method Session(ds: seq<Delivery>, helloOk: bool, initializedOk: bool, userAgent: Json -> Option<string>,
                 inputs: seq<Input>)
    returns (worker: Option<Worker>, ghost handshake: seq<Frame>, ghost trace: seq<Input>)
    ensures worker.Some? <==>
      helloOk && initializedOk && exists k :: 0 <= k < |ds| && Initialized(ds, k)
    ensures worker.Some? ==>
      && (exists k :: 0 <= k < |ds| && Initialized(ds, k) && handshake == FramesOf(ds[..k]))
      && Legal(DecodedEvents(handshake), trace)
      && worker.value.View() == Run(DecodedEvents(handshake), trace)
      && var all := Stream(handshake + HeardFrames(trace), LastWord(trace));
         && worker.value.yielded <= all
         && forall i :: 0 <= i < |all| && all[i].Disconnected? ==> i == |all| - 1
  {
    var result, rejected, decisive := InitializeRemoteConnection(ds, helloOk, initializedOk, userAgent);
    trace := [];
    handshake := FramesOf(ds[..decisive]);
    if helloOk {
      OnlyOneDecisive(ds, decisive);
    }
    if result.Refused? {
      worker := None;
      return;
    }
    assert Initialized(ds, decisive);
    var w := new Worker(result.events);
    worker := Some(w);
    ghost var buffer := result.events;
    hide Run, Legal, Step, Meet, CanMeet, FramesOf, DecodedEvents;
    StartsLegal(buffer);
    var i := 0;
    while i < |inputs|
      invariant 0 <= i <= |inputs| && fresh(w) && w.Valid()
      invariant Legal(buffer, trace) && w.View() == Run(buffer, trace)
    {
      var possible := if inputs[i] == Poll || inputs[i] == ConsumerGone then w.consumerOpen else w.running;
      CanMeetExactly(w.View(), inputs[i]);
      if possible {
        OneMoreInput(buffer, trace, inputs[i]);
        MeetInput(w, inputs[i]);
        trace := trace + [inputs[i]];
      }
      i := i + 1;
    }
    ClientStream(handshake, trace);
  }

  /** The frame at k answers the initialize request, after frames that let the handshake go on. */
  ghost predicate Initialized(ds: seq<Delivery>, k: nat)
    requires k < |ds|
  {
    && ds[k].frame.Response? && ds[k].frame.id == INITIALIZE_ID
    && forall j :: 0 <= j < k ==> Passes(ds[j])
  }

  lemma OnlyOneDecisive(ds: seq<Delivery>, decisive: nat)
    requires decisive <= |ds| && forall j :: 0 <= j < decisive ==> Passes(ds[j])
    requires decisive < |ds| ==> !Passes(ds[decisive])
    ensures forall k :: 0 <= k < |ds| && Initialized(ds, k) ==> k == decisive
  {
  }

  lemma StartsLegal(buffer: seq<AppServerEvent>)
    ensures Legal(buffer, []) && Run(buffer, []) == Init(buffer)
  {
  }

  lemma CanMeetExactly(s: State, input: Input)
    ensures CanMeet(s, input) <==> if input == Poll || input == ConsumerGone then s.consumerOpen else s.running
  {
  }
}

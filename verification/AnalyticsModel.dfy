/** The analytics reducer, specified one map at a time.

    The reducer joins facts about connections, threads, turns, tool items and approval reviews and emits
    events when a join completes.  This module says, for each of its seven maps and for its output, what
    one fact does to it.  The class in AnalyticsReducer performs a fact the way the source does and is
    proved to agree; the theorems over whole runs are in the Analytics* modules. */
module AnalyticsModel {
  import opened Options
  import AcceptedLines

  type ConnectionId = nat
  type RequestId = int
  type ThreadId = string
  type TurnId = string
  type ItemId = string

  // ---------------------------------------------------------------------------------------------
  // State
  // ---------------------------------------------------------------------------------------------

  datatype Connection = Connection(client: string, runtime: string)

  datatype InitializationMode = New | Resumed | Forked

  datatype ThreadMetadata = ThreadMetadata(
    sessionId: string, source: string, mode: InitializationMode, parent: Option<ThreadId>)

  datatype Thread = Thread(connection: Option<ConnectionId>, metadata: Option<ThreadMetadata>)

  datatype ClientRequest =
    | TurnStart(thread: ThreadId, images: nat)
    | TurnSteer(thread: ThreadId, expectedTurn: TurnId, images: nat)

  datatype ToolKind = Shell | Patch | Mcp | Dynamic | Subagent | Search | Image

  datatype ItemStatus = InProgress | Completed | Failed | Declined

  datatype ThreadItem = Tool(kind: ToolKind, id: ItemId, status: ItemStatus) | Untracked

  datatype ToolCounts = ToolCounts(
    total: nat, shell: nat, patch: nat, mcp: nat, dynamic: nat, subagent: nat, search: nat, image: nat)

  datatype Turn = Turn(
    connection: Option<ConnectionId>,
    thread: Option<ThreadId>,
    images: Option<nat>,
    config: Option<string>,
    startedAt: Option<nat>,
    tokenUsage: Option<string>,
    profile: Option<string>,
    completed: Option<string>,
    codexError: Option<string>,
    latestDiff: Option<string>,
    steerCount: nat,
    toolCounts: ToolCounts)

  datatype ToolKey = ToolKey(thread: ThreadId, turn: TurnId, item: ItemId)

  datatype Subject = CommandSubject | FileChangeSubject | McpSubject | PermissionsSubject | NetworkSubject

  datatype Reviewer = Guardian | User

  datatype ReviewStatus = Approved | Denied | Aborted | TimedOut

  datatype Resolution = NoResolution | SessionApproval | ExecPolicyAmendment | NetworkPolicyAmendment

  datatype ApprovalOutcome =
    | GuardianApproved | GuardianDenied | GuardianAborted
    | UserApproved | UserApprovedForSession | UserDenied | UserAborted

  datatype PendingReview = PendingReview(
    thread: ThreadId, turn: TurnId, item: Option<ItemId>, subject: Subject,
    startedAt: nat, morePermissions: bool, network: bool)

  datatype ReviewSummary = ReviewSummary(
    count: nat, guardian: nat, user: nat, outcome: Option<ApprovalOutcome>, morePermissions: bool, network: bool)

  datatype State = State(
    requests: map<(ConnectionId, RequestId), ClientRequest>,
    turns: map<TurnId, Turn>,
    connections: map<ConnectionId, Connection>,
    threads: map<ThreadId, Thread>,
    started: map<ToolKey, nat>,
    reviews: map<RequestId, PendingReview>,
    summaries: map<ToolKey, ReviewSummary>)

  const EMPTY: State := State(map[], map[], map[], map[], map[], map[], map[])
  const NO_COUNTS: ToolCounts := ToolCounts(0, 0, 0, 0, 0, 0, 0, 0)
  const NEW_TURN: Turn := Turn(None, None, None, None, None, None, None, None, None, None, 0, NO_COUNTS)
  const NO_REVIEWS: ReviewSummary := ReviewSummary(0, 0, 0, None, false, false)

  // ---------------------------------------------------------------------------------------------
  // Facts and events
  // ---------------------------------------------------------------------------------------------

  /** An approval the server asks the client for. */
  datatype Approval =
    | CommandApproval(networkContext: bool, networkAmendments: bool, permissions: Option<bool>) // network enabled
    | FileChangeApproval(grantRoot: bool)
    | PermissionsApproval(networkEnabled: bool, fileSystem: bool)

  datatype CommandDecision =
    | AcceptCommand | AcceptForSession | AcceptWithExecpolicyAmendment
    | ApplyNetworkPolicyAmendment(allow: bool) | DeclineCommand | CancelCommand

  datatype FileChangeDecision = AcceptChange | AcceptChangeForSession | DeclineChange | CancelChange

  datatype GuardianAction =
    | GuardCommand | GuardExecve | GuardPatch | GuardNetwork
    | GuardPermissions(networkEnabled: bool, fileSystem: bool) | GuardMcp

  datatype Fact =
    | Initialize(connection: ConnectionId, state: Connection)
    | RequestSent(connection: ConnectionId, request: RequestId, what: ClientRequest)
    | ThreadOpened(connection: ConnectionId, thread: ThreadId, metadata: ThreadMetadata)
    | TurnStartResponse(connection: ConnectionId, request: RequestId, turn: TurnId)
    | TurnSteerResponse(connection: ConnectionId, request: RequestId, turn: TurnId)
    | ErrorResponse(connection: ConnectionId, request: RequestId)
    | ItemStarted(thread: ThreadId, turn: TurnId, item: ThreadItem, at: int)
    | ItemCompleted(thread: ThreadId, turn: TurnId, item: ThreadItem, at: int)
    | GuardianReviewCompleted(thread: ThreadId, turn: TurnId, target: Option<ItemId>, action: GuardianAction,
                              status: Option<ReviewStatus>, startedAt: int, completedAt: int)
    | TurnStarted(turn: TurnId, clock: Option<int>)
    | TurnDiffUpdated(thread: ThreadId, turn: TurnId, diff: string)
    | TurnCompleted(turn: TurnId, completion: string)
    | ApprovalRequested(request: RequestId, thread: ThreadId, turn: TurnId, itemId: ItemId,
                        approval: Approval, startedAt: int)
    | CommandAnswered(request: RequestId, decision: CommandDecision)
    | FileChangeAnswered(request: RequestId, change: FileChangeDecision)
    | PermissionsAnswered(request: RequestId, nothingGranted: bool, forSession: bool)
    | RequestAborted(request: RequestId)
    | SubAgentStarted(thread: ThreadId, parent: Option<ThreadId>, sessionId: string, source: string)
    | Compaction(thread: ThreadId, turn: TurnId)
    | GuardianReview(thread: ThreadId, turn: TurnId)
    | TurnResolvedConfig(turn: TurnId, thread: ThreadId, images: nat, config: string)
    | TurnTokenUsage(turn: TurnId, thread: ThreadId, usage: string)
    | TurnProfile(turn: TurnId, profile: string)
    | TurnCodexError(turn: TurnId, thread: ThreadId, error: string)
    | Stateless(events: seq<string>)

  datatype TurnPayload = TurnPayload(
    turnId: TurnId, connection: Connection, metadata: ThreadMetadata, thread: ThreadId, images: nat, config: string,
    profile: string, completed: string, startedAt: Option<nat>, tokenUsage: Option<string>,
    codexError: Option<string>, steerCount: nat, toolCounts: ToolCounts)

  datatype Event =
    | ThreadInitialized(thread: ThreadId, metadata: ThreadMetadata)
    | TurnEvent(payload: TurnPayload)
    | AcceptedLineFingerprints(turn: TurnId, thread: ThreadId, added: nat, deleted: nat)
    | TurnSteerEvent(thread: ThreadId, expectedTurn: TurnId, acceptedTurn: Option<TurnId>)
    | ToolItemEvent(key: ToolKey, kind: ToolKind, startedAt: nat, completedAt: nat, review: ReviewSummary)
    | ReviewEvent(verdict: Verdict)
    | CompactionEvent(thread: ThreadId, turn: TurnId)
    | GuardianEvent(thread: ThreadId, turn: TurnId)
    | OtherEvent(name: string)

  /** A concluded review. */
  datatype Verdict = Verdict(review: PendingReview, reviewer: Reviewer, status: ReviewStatus, resolution: Resolution)

  // ---------------------------------------------------------------------------------------------
  // Classification
  // ---------------------------------------------------------------------------------------------

  /** option_i64_to_u64. */
  function Unsigned(n: int): Option<nat> {
    if n >= 0 then Some(n) else None
  }

  function Record(c: ToolCounts, kind: ToolKind): ToolCounts {
    (match kind
     case Shell => c.(shell := c.shell + 1)
     case Patch => c.(patch := c.patch + 1)
     case Mcp => c.(mcp := c.mcp + 1)
     case Dynamic => c.(dynamic := c.dynamic + 1)
     case Subagent => c.(subagent := c.subagent + 1)
     case Search => c.(search := c.search + 1)
     case Image => c.(image := c.image + 1)).(total := c.total + 1)
  }

  /** tool_item_event gives an event: searches and images always do, the others once they are over. */
  predicate Terminal(item: ThreadItem) {
    item.Tool? && (item.kind == Search || item.kind == Image || item.status != InProgress)
  }

  predicate RequestsNetwork(a: Approval) {
    match a
    case CommandApproval(context, amendments, permissions) => context || amendments || permissions == Some(true)
    case FileChangeApproval(_) => false
    case PermissionsApproval(network, _) => network
  }

  predicate RequestsPermissions(a: Approval) {
    match a
    case CommandApproval(_, _, permissions) => permissions.Some?
    case FileChangeApproval(grantRoot) => grantRoot
    case PermissionsApproval(network, fileSystem) => network || fileSystem
  }

  function ApprovalSubject(a: Approval): Subject {
    match a
    case CommandApproval(context, _, _) => if context then NetworkSubject else CommandSubject
    case FileChangeApproval(_) => FileChangeSubject
    case PermissionsApproval(_, _) => PermissionsSubject
  }

  function GuardianSubject(a: GuardianAction): Subject {
    match a
    case GuardCommand => CommandSubject
    case GuardExecve => CommandSubject
    case GuardPatch => FileChangeSubject
    case GuardNetwork => NetworkSubject
    case GuardPermissions(_, _) => PermissionsSubject
    case GuardMcp => McpSubject
  }

  predicate GuardianWantsPermissions(a: GuardianAction) {
    a.GuardPatch? || a.GuardNetwork? || (a.GuardPermissions? && (a.networkEnabled || a.fileSystem))
  }

  predicate GuardianWantsNetwork(a: GuardianAction) {
    a.GuardNetwork? || (a.GuardPermissions? && a.networkEnabled)
  }

  function CommandResult(d: CommandDecision): (ReviewStatus, Resolution) {
    match d
    case AcceptCommand => (Approved, NoResolution)
    case AcceptForSession => (Approved, SessionApproval)
    case AcceptWithExecpolicyAmendment => (Approved, ExecPolicyAmendment)
    case ApplyNetworkPolicyAmendment(allow) => (if allow then Approved else Denied, NetworkPolicyAmendment)
    case DeclineCommand => (Denied, NoResolution)
    case CancelCommand => (Aborted, NoResolution)
  }

  function FileChangeResult(d: FileChangeDecision): (ReviewStatus, Resolution) {
    match d
    case AcceptChange => (Approved, NoResolution)
    case AcceptChangeForSession => (Approved, SessionApproval)
    case DeclineChange => (Denied, NoResolution)
    case CancelChange => (Aborted, NoResolution)
  }

  function PermissionsResult(nothingGranted: bool, forSession: bool): (ReviewStatus, Resolution) {
    if nothingGranted then (Denied, NoResolution)
    else (Approved, if forSession then SessionApproval else NoResolution)
  }

  function FinalOutcome(v: Verdict): ApprovalOutcome {
    match (v.reviewer, v.status)
    case (Guardian, Approved) => GuardianApproved
    case (Guardian, Denied) => GuardianDenied
    case (Guardian, _) => GuardianAborted
    case (User, Approved) => if v.resolution == SessionApproval then UserApprovedForSession else UserApproved
    case (User, Denied) => UserDenied
    case (User, _) => UserAborted
  }

  /** Only command, file-change and MCP reviews with a target count towards a tool item. */
  function SummaryKey(r: PendingReview): Option<ToolKey> {
    if (r.subject == CommandSubject || r.subject == FileChangeSubject || r.subject == McpSubject) && r.item.Some?
    then Some(ToolKey(r.thread, r.turn, r.item.value))
    else None
  }

  function RecordReview(s: ReviewSummary, v: Verdict): ReviewSummary {
    ReviewSummary(s.count + 1,
                  s.guardian + (if v.reviewer == Guardian then 1 else 0),
                  s.user + (if v.reviewer == User then 1 else 0),
                  Some(FinalOutcome(v)),
                  s.morePermissions || v.review.morePermissions,
                  s.network || v.review.network)
  }

  // ---------------------------------------------------------------------------------------------
  // Context of a thread
  // ---------------------------------------------------------------------------------------------

  datatype Missing = ThreadConnectionMissing | ConnectionMissing | ThreadMetadataMissing

  datatype Context = Context(connection: Connection, metadata: ThreadMetadata) | NoContext(missing: Missing)

  /** thread_context_or_warn. */
  function ContextOf(s: State, thread: ThreadId): Context {
    if thread !in s.threads || s.threads[thread].connection.None? then NoContext(ThreadConnectionMissing)
    else if s.threads[thread].connection.value !in s.connections then NoContext(ConnectionMissing)
    else if s.threads[thread].metadata.None? then NoContext(ThreadMetadataMissing)
    else Context(s.connections[s.threads[thread].connection.value], s.threads[thread].metadata.value)
  }

  predicate ThreadKnown(s: State, thread: ThreadId) {
    thread in s.threads && s.threads[thread].metadata.Some?
  }

  // ---------------------------------------------------------------------------------------------
  // One fact, map by map
  // ---------------------------------------------------------------------------------------------

  function NextConnections(s: State, f: Fact): map<ConnectionId, Connection> {
    if f.Initialize? then s.connections[f.connection := f.state] else s.connections
  }

  function NextRequests(s: State, f: Fact): map<(ConnectionId, RequestId), ClientRequest> {
    if f.RequestSent? then s.requests[(f.connection, f.request) := f.what]
    else if f.TurnStartResponse? || f.TurnSteerResponse? || f.ErrorResponse? then
      s.requests - {(f.connection, f.request)}
    else s.requests
  }

  function OpenedThread(f: Fact): Thread
    requires f.ThreadOpened?
  {
    Thread(Some(f.connection), Some(f.metadata))
  }

  /** A subagent inherits its parent's connection unless it already has one. */
  function SubAgentThread(s: State, f: Fact): Thread
    requires f.SubAgentStarted?
  {
    var known := if f.thread in s.threads then s.threads[f.thread] else Thread(None, None);
    var inherited :=
      if f.parent.Some? && f.parent.value in s.threads then s.threads[f.parent.value].connection else None;
    Thread(if known.connection.Some? then known.connection else inherited,
           if known.metadata.Some? then known.metadata
           else Some(ThreadMetadata(f.sessionId, f.source, New, f.parent)))
  }

  function NextThreads(s: State, f: Fact): map<ThreadId, Thread> {
    if f.ThreadOpened? && f.connection in s.connections then s.threads[f.thread := OpenedThread(f)]
    else if f.SubAgentStarted? then s.threads[f.thread := SubAgentThread(s, f)]
    else s.threads
  }

  /** The fact is the completion of a tracked item of a turn that has a state. */
  predicate CompletesTool(s: State, f: Fact) {
    f.ItemCompleted? && f.item.Tool? && f.turn in s.turns
  }

  function KeyOf(f: Fact): ToolKey
    requires (f.ItemCompleted? || f.ItemStarted?) && f.item.Tool?
  {
    ToolKey(f.thread, f.turn, f.item.id)
  }

  function NextStarted(s: State, f: Fact): map<ToolKey, nat> {
    if f.ItemStarted? && f.item.Tool? && f.at >= 0 then s.started[KeyOf(f) := f.at]
    else if CompletesTool(s, f) then s.started - {KeyOf(f)}
    else s.started
  }

  /** The review an approval request registers. */
  function Registers(f: Fact): Option<PendingReview> {
    if f.ApprovalRequested? && f.startedAt >= 0 then
      Some(PendingReview(f.thread, f.turn, Some(f.itemId), ApprovalSubject(f.approval), f.startedAt,
                         RequestsPermissions(f.approval), RequestsNetwork(f.approval)))
    else None
  }

  /** The fact ends whatever approval is pending under its request id. */
  predicate Settles(f: Fact) {
    f.CommandAnswered? || f.FileChangeAnswered? || f.PermissionsAnswered? || f.RequestAborted?
  }

  function NextReviews(s: State, f: Fact): map<RequestId, PendingReview> {
    if Registers(f).Some? then s.reviews[f.request := Registers(f).value]
    else if Settles(f) then s.reviews - {f.request}
    else s.reviews
  }

  function UserResult(f: Fact): (ReviewStatus, Resolution)
    requires Settles(f)
  {
    match f
    case CommandAnswered(_, decision) => CommandResult(decision)
    case FileChangeAnswered(_, change) => FileChangeResult(change)
    case PermissionsAnswered(_, nothing, session) => PermissionsResult(nothing, session)
    case RequestAborted(_) => (Aborted, NoResolution)
  }

  /** The review a fact concludes. */
  function Concludes(s: State, f: Fact): Option<Verdict> {
    if Settles(f) && f.request in s.reviews then
      Some(Verdict(s.reviews[f.request], User, UserResult(f).0, UserResult(f).1))
    else if f.GuardianReviewCompleted? && f.status.Some? && f.startedAt >= 0 && f.completedAt >= 0 then
      Some(Verdict(
        PendingReview(f.thread, f.turn, f.target, GuardianSubject(f.action), f.startedAt,
                      GuardianWantsPermissions(f.action), GuardianWantsNetwork(f.action)),
        Guardian, f.status.value, NoResolution))
    else None
  }

  /** The tool item whose review summary a fact uses up. */
  function Consumes(s: State, f: Fact): Option<ToolKey> {
    if CompletesTool(s, f) && KeyOf(f) in s.started && f.at >= 0 && ContextOf(s, f.thread).Context?
    then Some(KeyOf(f))
    else None
  }

  function SummaryOf(s: State, key: ToolKey): ReviewSummary {
    if key in s.summaries then s.summaries[key] else NO_REVIEWS
  }

  function NextSummaries(s: State, f: Fact): map<ToolKey, ReviewSummary> {
    if Consumes(s, f).Some? then s.summaries - {Consumes(s, f).value}
    else if Concludes(s, f).Some? && SummaryKey(Concludes(s, f).value.review).Some? then
      var key := SummaryKey(Concludes(s, f).value.review).value;
      s.summaries[key := RecordReview(SummaryOf(s, key), Concludes(s, f).value)]
    else s.summaries
  }

  // Turns

  function TurnOf(s: State, turn: TurnId): Turn {
    if turn in s.turns then s.turns[turn] else NEW_TURN
  }

  /** A turn/start response for a request that was seen. */
  predicate MatchedStart(s: State, f: Fact) {
    f.TurnStartResponse? && (f.connection, f.request) in s.requests && s.requests[(f.connection, f.request)].TurnStart?
  }

  predicate MatchedSteer(s: State, f: Fact) {
    f.TurnSteerResponse? && (f.connection, f.request) in s.requests && s.requests[(f.connection, f.request)].TurnSteer?
  }

  /** The turn a fact writes to. */
  predicate Touches(s: State, f: Fact) {
    || MatchedStart(s, f) || (MatchedSteer(s, f) && f.turn in s.turns) || CompletesTool(s, f)
    || f.TurnResolvedConfig? || f.TurnTokenUsage? || f.TurnProfile? || f.TurnCodexError?
    || f.TurnStarted? || f.TurnDiffUpdated? || f.TurnCompleted?
  }

  /** The turn's state after the fact was written to it. */
  function Touched(s: State, f: Fact): Turn
    requires Touches(s, f)
  {
    var t := TurnOf(s, f.turn);
    match f
    case TurnStartResponse(c, r, _) =>
      t.(connection := Some(c), thread := Some(s.requests[(c, r)].thread), images := Some(s.requests[(c, r)].images))
    case TurnSteerResponse(_, _, _) => t.(steerCount := t.steerCount + 1)
    case ItemCompleted(_, _, item, _) => t.(toolCounts := Record(t.toolCounts, item.kind))
    case TurnResolvedConfig(_, thread, images, config) =>
      t.(thread := Some(thread), images := Some(images), config := Some(config))
    case TurnTokenUsage(_, thread, usage) => t.(thread := Some(thread), tokenUsage := Some(usage))
    case TurnProfile(_, profile) => t.(profile := Some(profile))
    case TurnCodexError(_, thread, error) =>
      t.(thread := if t.thread.Some? then t.thread else Some(thread), codexError := Some(error))
    case TurnStarted(_, at) => t.(startedAt := if at.Some? then Unsigned(at.value) else None)
    case TurnDiffUpdated(thread, _, diff) => t.(thread := Some(thread), latestDiff := Some(diff))
    case TurnCompleted(_, completion) => t.(completed := Some(completion))
  }

  /** After these facts the reducer tries to emit the turn. */
  predicate Triggers(f: Fact) {
    f.TurnResolvedConfig? || f.TurnTokenUsage? || f.TurnProfile? || f.TurnStartResponse? || f.TurnCompleted?
  }

  /** All the reducer waits for before it emits a turn, apart from the context. */
  predicate Populated(t: Turn) {
    t.thread.Some? && t.images.Some? && t.config.Some? && t.profile.Some? && t.completed.Some? && t.connection.Some?
  }

  predicate Ready(s: State, t: Turn) {
    Populated(t) && t.connection.value in s.connections && ThreadKnown(s, t.thread.value)
  }

  /** The fact makes the reducer emit its turn. */
  predicate EmitsTurn(s: State, f: Fact) {
    Touches(s, f) && Triggers(f) && Ready(s, Touched(s, f))
  }

  function NextTurns(s: State, f: Fact): map<TurnId, Turn> {
    if !Touches(s, f) then s.turns
    else if EmitsTurn(s, f) then s.turns - {f.turn}
    else s.turns[f.turn := Touched(s, f)]
  }

  function Next(s: State, f: Fact): State {
    State(NextRequests(s, f), NextTurns(s, f), NextConnections(s, f), NextThreads(s, f), NextStarted(s, f),
          NextReviews(s, f), NextSummaries(s, f))
  }

  // ---------------------------------------------------------------------------------------------
  // The output
  // ---------------------------------------------------------------------------------------------

  function PayloadOf(s: State, turn: TurnId, t: Turn): TurnPayload
    requires Ready(s, t)
  {
    TurnPayload(turn, s.connections[t.connection.value], s.threads[t.thread.value].metadata.value, t.thread.value,
                t.images.value, t.config.value, t.profile.value, t.completed.value, t.startedAt, t.tokenUsage,
                t.codexError, t.steerCount, t.toolCounts)
  }

  /** A turn that changed lines also reports how many. */
  function AcceptedLineEvents(turn: TurnId, t: Turn): seq<Event>
    requires t.thread.Some?
  {
    if t.latestDiff.None? || AcceptedLines.Counts(t.latestDiff.value) == (0, 0) then []
    else
      var (added, deleted) := AcceptedLines.Counts(t.latestDiff.value);
      [AcceptedLineFingerprints(turn, t.thread.value, added, deleted)]
  }

  function TurnEvents(s: State, turn: TurnId, t: Turn): seq<Event>
    requires Ready(s, t)
  {
    [TurnEvent(PayloadOf(s, turn, t))] + AcceptedLineEvents(turn, t)
  }

  function ToolEvents(s: State, f: Fact): seq<Event>
    requires f.ItemCompleted?
  {
    if Consumes(s, f).Some? && Terminal(f.item) then
      [ToolItemEvent(KeyOf(f), f.item.kind, s.started[KeyOf(f)], f.at, SummaryOf(s, KeyOf(f)))]
    else []
  }

  function ReviewEvents(s: State, v: Option<Verdict>): seq<Event> {
    if v.Some? && ContextOf(s, v.value.review.thread).Context? then [ReviewEvent(v.value)] else []
  }

  /** A steer is reported under the connection that made it and the metadata of its thread. */
  function SteerEvents(s: State, connection: ConnectionId, request: ClientRequest, accepted: Option<TurnId>): seq<Event>
    requires request.TurnSteer?
  {
    if connection in s.connections && ThreadKnown(s, request.thread) then
      [TurnSteerEvent(request.thread, request.expectedTurn, accepted)]
    else []
  }

  function Named(names: seq<string>): seq<Event> {
    if names == [] then [] else [OtherEvent(names[0])] + Named(names[1..])
  }

  function Emitted(s: State, f: Fact): seq<Event> {
    match f
    case ThreadOpened(c, thread, metadata) => if c in s.connections then [ThreadInitialized(thread, metadata)] else []
    case SubAgentStarted(thread, parent, sessionId, source) =>
      [ThreadInitialized(thread, ThreadMetadata(sessionId, source, New, parent))]
    case TurnSteerResponse(c, r, turn) =>
      if MatchedSteer(s, f) then SteerEvents(s, c, s.requests[(c, r)], Some(turn)) else []
    case ErrorResponse(c, r) =>
      if (c, r) in s.requests && s.requests[(c, r)].TurnSteer? then SteerEvents(s, c, s.requests[(c, r)], None) else []
    case ItemCompleted(_, _, _, _) => ToolEvents(s, f)
    case GuardianReviewCompleted(_, _, _, _, _, _, _) => ReviewEvents(s, Concludes(s, f))
    case CommandAnswered(_, _) => ReviewEvents(s, Concludes(s, f))
    case FileChangeAnswered(_, _) => ReviewEvents(s, Concludes(s, f))
    case PermissionsAnswered(_, _, _) => ReviewEvents(s, Concludes(s, f))
    case RequestAborted(_) => ReviewEvents(s, Concludes(s, f))
    case Compaction(thread, turn) => if ContextOf(s, thread).Context? then [CompactionEvent(thread, turn)] else []
    case GuardianReview(thread, turn) => if ContextOf(s, thread).Context? then [GuardianEvent(thread, turn)] else []
    case Stateless(names) => Named(names)
    case _ => if EmitsTurn(s, f) then TurnEvents(s, f.turn, Touched(s, f)) else []
  }

  /** One event per name, in order. */
  lemma {:induction false} NamedAreOther(names: seq<string>)
    ensures |Named(names)| == |names|
    ensures forall i :: 0 <= i < |Named(names)| ==> Named(names)[i] == OtherEvent(names[i])
  {
    if names != [] {
      NamedAreOther(names[1..]);
    }
  }

  // ---------------------------------------------------------------------------------------------
  // Runs
  // ---------------------------------------------------------------------------------------------

  function Run(s: State, facts: seq<Fact>): State {
    if facts == [] then s else Next(Run(s, facts[..|facts| - 1]), facts[|facts| - 1])
  }

  lemma RunAppend(s: State, facts: seq<Fact>, f: Fact)
    ensures Run(s, facts + [f]) == Next(Run(s, facts), f)
  {
    assert (facts + [f])[..|facts|] == facts;
  }

  lemma {:induction false} RunConcat(s: State, a: seq<Fact>, b: seq<Fact>)
    ensures Run(s, a + b) == Run(Run(s, a), b)
  {
    hide Next;
    if b == [] {
      assert a + b == a;
    } else {
      var n := |b| - 1;
      RunConcat(s, a, b[..n]);
      assert a + b == (a + b[..n]) + [b[n]];
      RunAppend(s, a + b[..n], b[n]);
    }
  }
}

/** The reducer itself: one object whose methods update its maps in place, fact by fact, and hand back the
    events they emit.  Ingest is proved to perform exactly the specification's step. */
module AnalyticsReducer {
  import opened Options
  import opened AnalyticsModel

  /** A fact that makes the reducer look at its turn. */
  lemma TriggerStep(s: State, f: Fact)
    requires Touches(s, f) && Triggers(f)
    ensures Next(s, f) == s.(requests := NextRequests(s, f),
                             turns := if Ready(s, Touched(s, f)) then s.turns - {f.turn}
                                      else s.turns[f.turn := Touched(s, f)])
    ensures Emitted(s, f) == if Ready(s, Touched(s, f)) then TurnEvents(s, f.turn, Touched(s, f)) else []
  {
    hide Touched, Ready, NextRequests;
  }

  lemma StartWrites(s: State, f: Fact)
    requires MatchedStart(s, f)
    ensures Touches(s, f) && Triggers(f)
    ensures var asked := s.requests[(f.connection, f.request)];
      Touched(s, f) == TurnOf(s, f.turn).(connection := Some(f.connection),
                                          thread := Some(asked.thread), images := Some(asked.images))
  {
    hide TurnOf;
  }

  /** The completion of an item. */
  lemma CompletionStep(s: State, f: Fact)
    requires f.ItemCompleted?
    ensures !CompletesTool(s, f) ==> Next(s, f) == s && Emitted(s, f) == []
    ensures CompletesTool(s, f) ==>
      var t := s.turns[f.turn];
      && Next(s, f) == s.(turns := s.turns[f.turn := t.(toolCounts := Record(t.toolCounts, f.item.kind))],
                          started := s.started - {KeyOf(f)},
                          summaries := if Consumes(s, f).Some? then s.summaries - {KeyOf(f)} else s.summaries)
      && Emitted(s, f) == ToolEvents(s, f)
  {
    hide Record, ContextOf;
  }

  /** A start response nobody asked for. */
  lemma UnmatchedStep(s: State, f: Fact)
    requires f.TurnStartResponse?
    ensures !MatchedStart(s, f) ==> Next(s, f) == s.(requests := NextRequests(s, f)) && Emitted(s, f) == []
  {
  }

  lemma StatelessStep(s: State, f: Fact)
    requires f.Stateless?
    ensures Next(s, f) == s && Emitted(s, f) == Named(f.events)
  {
    hide Named;
  }

  /** A fact that only writes to its turn. */
  lemma SilentStep(s: State, f: Fact)
    requires f.TurnCodexError? || f.TurnStarted? || f.TurnDiffUpdated?
    ensures Next(s, f) == s.(turns := s.turns[f.turn := Touched(s, f)]) && Emitted(s, f) == []
  {
    hide Touched, Ready;
  }

  lemma SubAgentStep(s: State, f: Fact)
    requires f.SubAgentStarted?
    ensures Next(s, f) == s.(threads := s.threads[f.thread := SubAgentThread(s, f)])
    ensures Emitted(s, f) == [ThreadInitialized(f.thread, ThreadMetadata(f.sessionId, f.source, New, f.parent))]
  {
    hide SubAgentThread;
  }

  /** A fact that concludes a review. */
  lemma VerdictStep(s: State, f: Fact)
    requires Concludes(s, f).Some?
    ensures var v := Concludes(s, f).value; var key := SummaryKey(v.review);
      && Next(s, f) == s.(reviews := NextReviews(s, f),
                          summaries := if key.Some?
                                       then s.summaries[key.value := RecordReview(SummaryOf(s, key.value), v)]
                                       else s.summaries)
      && Emitted(s, f) == ReviewEvents(s, Some(v))
  {
    hide RecordReview, SummaryKey, SummaryOf, ReviewEvents;
  }

  lemma SameReviewEvents(s: State, u: State, v: Option<Verdict>)
    requires s.connections == u.connections && s.threads == u.threads
    ensures ReviewEvents(s, v) == ReviewEvents(u, v)
  {
  }

  lemma ErrorWrites(s: State, turn: TurnId, thread: ThreadId, error: string)
    ensures var f, t := TurnCodexError(turn, thread, error), TurnOf(s, turn);
      && Touches(s, f)
      && Touched(s, f) == t.(thread := if t.thread.Some? then t.thread else Some(thread), codexError := Some(error))
  {
    hide TurnOf;
  }

  /** Whether a turn is ready, and what its events say, depends on connections and threads alone. */
  lemma SameReady(s: State, u: State, turn: TurnId, t: Turn)
    requires s.connections == u.connections && s.threads == u.threads
    ensures Ready(s, t) <==> Ready(u, t)
    ensures Ready(s, t) ==> TurnEvents(s, turn, t) == TurnEvents(u, turn, t)
  {
    hide AcceptedLineEvents;
  }

  class Reducer {
    var requests: map<(ConnectionId, RequestId), ClientRequest>
    var turns: map<TurnId, Turn>
    var connections: map<ConnectionId, Connection>
    var threads: map<ThreadId, Thread>
    var started: map<ToolKey, nat>
    var reviews: map<RequestId, PendingReview>
    var summaries: map<ToolKey, ReviewSummary>

    function View(): State
      reads this
    {
      State(requests, turns, connections, threads, started, reviews, summaries)
    }

    constructor ()
      ensures View() == EMPTY
    {
      requests, turns, connections, threads := map[], map[], map[], map[];
      started, reviews, summaries := map[], map[], map[];
    }

    // -------------------------------------------------------------------------------------------
    // Lookups
    // -------------------------------------------------------------------------------------------

    /** The state behind a thread's connection, or what is missing. */
    method ThreadContext(thread: ThreadId) returns (context: Context)
      ensures context == ContextOf(View(), thread)
    {
      if thread !in threads {
        return NoContext(ThreadConnectionMissing);
      }
      var known := threads[thread];
      if known.connection.None? {
        return NoContext(ThreadConnectionMissing);
      }
      if known.connection.value !in connections {
        return NoContext(ConnectionMissing);
      }
      if known.metadata.None? {
        return NoContext(ThreadMetadataMissing);
      }
      return Context(connections[known.connection.value], known.metadata.value);
    }

    /** The turn's record, created when it is missing. */
    method TurnEntry(turn: TurnId) returns (t: Turn)
      modifies this`turns
      ensures t == TurnOf(old(View()), turn) && turns == old(turns)[turn := t]
    {
      if turn !in turns {
        turns := turns[turn := NEW_TURN];
      }
      t := turns[turn];
    }

    // -------------------------------------------------------------------------------------------
    // Turns
    // -------------------------------------------------------------------------------------------

    /** Emits the turn and forgets it, if nothing it needs is missing. */
    method MaybeEmitTurnEvent(turn: TurnId) returns (out: seq<Event>)
      modifies this`turns
      ensures if turn in old(turns) && Ready(old(View()), old(turns)[turn])
              then turns == old(turns) - {turn} && out == TurnEvents(old(View()), turn, old(turns)[turn])
              else turns == old(turns) && out == []
    {
      out := [];
      if turn !in turns {
        return;
      }
      var t := turns[turn];
      if t.thread.None? || t.images.None? || t.config.None? || t.profile.None? || t.completed.None? {
        return;
      }
      if t.connection.None? || t.connection.value !in connections {
        return;
      }
      if t.thread.value !in threads || threads[t.thread.value].metadata.None? {
        return;
      }
      out := [TurnEvent(PayloadOf(View(), turn, t))];
      out := out + AcceptedLineEvents(turn, t);
      turns := turns - {turn};
    }

    method IngestTurnResolvedConfig(turn: TurnId, thread: ThreadId, images: nat, config: string)
      returns (out: seq<Event>)
      modifies this`turns
      ensures var f := TurnResolvedConfig(turn, thread, images, config);
        View() == Next(old(View()), f) && out == Emitted(old(View()), f)
    {
      ghost var s, f := View(), TurnResolvedConfig(turn, thread, images, config);
      hide Next, Emitted, Ready;
      var t := TurnEntry(turn);
      t := t.(thread := Some(thread), images := Some(images), config := Some(config));
      turns := turns[turn := t];
      assert t == Touched(s, f);
      TriggerStep(s, f);
      SameReady(s, View(), turn, t);
      hide Touched;
      out := MaybeEmitTurnEvent(turn);
    }

    method IngestTurnTokenUsage(turn: TurnId, thread: ThreadId, usage: string) returns (out: seq<Event>)
      modifies this`turns
      ensures var f := TurnTokenUsage(turn, thread, usage);
        View() == Next(old(View()), f) && out == Emitted(old(View()), f)
    {
      ghost var s, f := View(), TurnTokenUsage(turn, thread, usage);
      hide Next, Emitted, Ready;
      var t := TurnEntry(turn);
      t := t.(thread := Some(thread), tokenUsage := Some(usage));
      turns := turns[turn := t];
      assert t == Touched(s, f);
      TriggerStep(s, f);
      SameReady(s, View(), turn, t);
      hide Touched;
      out := MaybeEmitTurnEvent(turn);
    }

    method IngestTurnProfile(turn: TurnId, profile: string) returns (out: seq<Event>)
      modifies this`turns
      ensures var f := TurnProfile(turn, profile);
        View() == Next(old(View()), f) && out == Emitted(old(View()), f)
    {
      ghost var s, f := View(), TurnProfile(turn, profile);
      hide Next, Emitted, Ready;
      var t := TurnEntry(turn);
      t := t.(profile := Some(profile));
      turns := turns[turn := t];
      assert t == Touched(s, f);
      TriggerStep(s, f);
      SameReady(s, View(), turn, t);
      hide Touched;
      out := MaybeEmitTurnEvent(turn);
    }

    method IngestTurnCodexError(turn: TurnId, thread: ThreadId, error: string)
      modifies this`turns
      ensures View() == Next(old(View()), TurnCodexError(turn, thread, error))
    {
      hide Next, Emitted, Touched, Touches;
      SilentStep(View(), TurnCodexError(turn, thread, error));
      ErrorWrites(View(), turn, thread, error);
      var t := TurnEntry(turn);
      if t.thread.None? {
        t := t.(thread := Some(thread));
      }
      turns := turns[turn := t.(codexError := Some(error))];
    }

    method IngestTurnStarted(turn: TurnId, clock: Option<int>)
      modifies this`turns
      ensures View() == Next(old(View()), TurnStarted(turn, clock))
    {
      hide Next, Emitted;
      SilentStep(View(), TurnStarted(turn, clock));
      var t := TurnEntry(turn);
      turns := turns[turn := t.(startedAt := if clock.Some? then Unsigned(clock.value) else None)];
    }

    method IngestTurnDiffUpdated(thread: ThreadId, turn: TurnId, diff: string)
      modifies this`turns
      ensures View() == Next(old(View()), TurnDiffUpdated(thread, turn, diff))
    {
      hide Next, Emitted;
      SilentStep(View(), TurnDiffUpdated(thread, turn, diff));
      var t := TurnEntry(turn);
      turns := turns[turn := t.(thread := Some(thread), latestDiff := Some(diff))];
    }

    method IngestTurnCompleted(turn: TurnId, completion: string) returns (out: seq<Event>)
      modifies this`turns
      ensures var f := TurnCompleted(turn, completion);
        View() == Next(old(View()), f) && out == Emitted(old(View()), f)
    {
      ghost var s, f := View(), TurnCompleted(turn, completion);
      hide Next, Emitted, Ready;
      var t := TurnEntry(turn);
      t := t.(completed := Some(completion));
      turns := turns[turn := t];
      assert t == Touched(s, f);
      TriggerStep(s, f);
      SameReady(s, View(), turn, t);
      hide Touched;
      out := MaybeEmitTurnEvent(turn);
    }

    // -------------------------------------------------------------------------------------------
    // Client requests and responses
    // -------------------------------------------------------------------------------------------

    /** Takes a remembered request out. */
    method TakeRequest(connection: ConnectionId, request: RequestId) returns (taken: Option<ClientRequest>)
      modifies this`requests
      ensures requests == old(requests) - {(connection, request)}
      ensures taken == if (connection, request) in old(requests)
                       then Some(old(requests)[(connection, request)])
                       else None
    {
      taken := if (connection, request) in requests then Some(requests[(connection, request)]) else None;
      requests := requests - {(connection, request)};
    }

    /** Ties the turn to the connection, thread and images of its request. */
    method StartTurn(connection: ConnectionId, thread: ThreadId, images: nat, turn: TurnId) returns (out: seq<Event>)
      modifies this`turns
      ensures var s := old(View());
        var t := TurnOf(s, turn).(connection := Some(connection), thread := Some(thread), images := Some(images));
        if Ready(s, t) then turns == s.turns - {turn} && out == TurnEvents(s, turn, t)
        else turns == s.turns[turn := t] && out == []
    {
      ghost var s := View();
      var t := TurnEntry(turn);
      t := t.(connection := Some(connection), thread := Some(thread), images := Some(images));
      turns := turns[turn := t];
      SameReady(s, View(), turn, t);
      hide Ready;
      out := MaybeEmitTurnEvent(turn);
    }

    method IngestTurnStartResponse(connection: ConnectionId, request: RequestId, turn: TurnId) returns (out: seq<Event>)
      modifies this`requests, this`turns
      ensures var f := TurnStartResponse(connection, request, turn);
        View() == Next(old(View()), f) && out == Emitted(old(View()), f)
    {
      ghost var s, f := View(), TurnStartResponse(connection, request, turn);
      hide Next, Emitted, Ready, Touched, Touches, Triggers;
      UnmatchedStep(s, f);
      out := [];
      var taken := TakeRequest(connection, request);
      if taken.None? || !taken.value.TurnStart? {
        return;
      }
      StartWrites(s, f);
      TriggerStep(s, f);
      SameReady(s, View(), turn, Touched(s, f));
      hide TurnEvents;
      assert TurnOf(s, turn) == TurnOf(View(), turn);
      hide TurnOf;
      out := StartTurn(connection, taken.value.thread, taken.value.images, turn);
    }

    method EmitTurnSteerEvent(connection: ConnectionId, request: ClientRequest, accepted: Option<TurnId>)
      returns (out: seq<Event>)
      requires request.TurnSteer?
      ensures out == SteerEvents(View(), connection, request, accepted)
    {
      if connection !in connections {
        return [];
      }
      if request.thread !in threads || threads[request.thread].metadata.None? {
        return [];
      }
      out := [TurnSteerEvent(request.thread, request.expectedTurn, accepted)];
    }

    method IngestTurnSteerResponse(connection: ConnectionId, request: RequestId, turn: TurnId) returns (out: seq<Event>)
      modifies this`requests, this`turns
      ensures var f := TurnSteerResponse(connection, request, turn);
        View() == Next(old(View()), f) && out == Emitted(old(View()), f)
    {
      out := [];
      var taken := TakeRequest(connection, request);
      if taken.None? || !taken.value.TurnSteer? {
        return;
      }
      if turn in turns {
        turns := turns[turn := turns[turn].(steerCount := turns[turn].steerCount + 1)];
      }
      out := EmitTurnSteerEvent(connection, taken.value, Some(turn));
    }

    method IngestErrorResponse(connection: ConnectionId, request: RequestId) returns (out: seq<Event>)
      modifies this`requests
      ensures var f := ErrorResponse(connection, request);
        View() == Next(old(View()), f) && out == Emitted(old(View()), f)
    {
      out := [];
      var taken := TakeRequest(connection, request);
      if taken.Some? {
        match taken.value
        case TurnStart(_, _) =>
        case TurnSteer(_, _, _) => out := EmitTurnSteerEvent(connection, taken.value, None);
      }
    }

    // -------------------------------------------------------------------------------------------
    // Threads
    // -------------------------------------------------------------------------------------------

    method EmitThreadInitialized(connection: ConnectionId, thread: ThreadId, metadata: ThreadMetadata)
      returns (out: seq<Event>)
      modifies this`threads
      ensures var s, f := old(View()), ThreadOpened(connection, thread, metadata);
        View() == Next(s, f) && out == Emitted(s, f)
    {
      if connection !in connections {
        return [];
      }
      threads := threads[thread := Thread(Some(connection), Some(metadata))];
      out := [ThreadInitialized(thread, metadata)];
    }

    method IngestSubagentThreadStarted(thread: ThreadId, parent: Option<ThreadId>, sessionId: string, source: string)
      returns (out: seq<Event>)
      modifies this`threads
      ensures var s, f := old(View()), SubAgentStarted(thread, parent, sessionId, source);
        View() == Next(s, f) && out == Emitted(s, f)
    {
      hide Next, Emitted;
      SubAgentStep(View(), SubAgentStarted(thread, parent, sessionId, source));
      var inherited: Option<ConnectionId> := None;
      if parent.Some? && parent.value in threads {
        inherited := threads[parent.value].connection;
      }
      var known := if thread in threads then threads[thread] else Thread(None, None);
      if known.metadata.None? {
        known := known.(metadata := Some(ThreadMetadata(sessionId, source, New, parent)));
      }
      if known.connection.None? {
        known := known.(connection := inherited);
      }
      threads := threads[thread := known];
      out := [ThreadInitialized(thread, ThreadMetadata(sessionId, source, New, parent))];
    }

    // -------------------------------------------------------------------------------------------
    // Reviews
    // -------------------------------------------------------------------------------------------

    /** Remembers an approval the user is asked for. */
    method IngestServerRequest(request: RequestId, thread: ThreadId, turn: TurnId, item: ItemId,
                               approval: Approval, at: int)
      modifies this`reviews
      ensures View() == Next(old(View()), ApprovalRequested(request, thread, turn, item, approval, at))
    {
      var network, permissions, subject;
      match approval {
        case CommandApproval(context, amendments, more) =>
          network := context || amendments || (more.Some? && more.value);
          permissions := more.Some?;
          subject := if context then NetworkSubject else CommandSubject;
        case FileChangeApproval(grantRoot) =>
          network, permissions, subject := false, grantRoot, FileChangeSubject;
        case PermissionsApproval(enabled, fileSystem) =>
          network, permissions, subject := enabled, enabled || fileSystem, PermissionsSubject;
      }
      if Unsigned(at).None? {
        return;
      }
      reviews := reviews[request := PendingReview(thread, turn, Some(item), subject, at, permissions, network)];
    }

    method RecordItemReviewSummary(key: ToolKey, v: Verdict)
      modifies this`summaries
      ensures summaries == old(summaries)[key := RecordReview(SummaryOf(old(View()), key), v)]
    {
      var summary := if key in summaries then summaries[key] else NO_REVIEWS;
      summary := summary.(count := summary.count + 1);
      match v.reviewer {
        case Guardian => summary := summary.(guardian := summary.guardian + 1);
        case User => summary := summary.(user := summary.user + 1);
      }
      summary := summary.(outcome := Some(FinalOutcome(v)));
      summary := summary.(morePermissions := summary.morePermissions || v.review.morePermissions);
      summary := summary.(network := summary.network || v.review.network);
      summaries := summaries[key := summary];
    }

    /** Counts the review towards its tool item, then reports it if its thread has a context. */
    method EmitReviewEvent(v: Verdict) returns (out: seq<Event>)
      modifies this`summaries
      ensures var key := SummaryKey(v.review);
        summaries == if key.Some? then old(summaries)[key.value := RecordReview(SummaryOf(old(View()), key.value), v)]
                     else old(summaries)
      ensures out == ReviewEvents(old(View()), Some(v))
    {
      var key := SummaryKey(v.review);
      if key.Some? {
        RecordItemReviewSummary(key.value, v);
      }
      var context := ThreadContext(v.review.thread);
      if context.NoContext? {
        return [];
      }
      out := [ReviewEvent(v)];
    }

    /** Any answer to a pending approval, or its abortion. */
    method SettleReview(request: RequestId, f: Fact) returns (out: seq<Event>)
      requires Settles(f) && f.request == request
      modifies this`reviews, this`summaries
      ensures View() == Next(old(View()), f) && out == Emitted(old(View()), f)
    {
      if request !in reviews {
        return [];
      }
      var review := reviews[request];
      reviews := reviews - {request};
      var (status, resolution) := UserResult(f);
      var v := Verdict(review, User, status, resolution);
      VerdictStep(old(View()), f);
      assert Concludes(old(View()), f) == Some(v);
      hide Next, Emitted, RecordReview, SummaryKey, UserResult;
      SameReviewEvents(old(View()), View(), Some(v));
      out := EmitReviewEvent(v);
    }

    method IngestGuardianReviewCompleted(thread: ThreadId, turn: TurnId, target: Option<ItemId>, action: GuardianAction,
                                         status: Option<ReviewStatus>, startedAt: int, completedAt: int)
      returns (out: seq<Event>)
      modifies this`summaries
      ensures var s, f := old(View()),
                          GuardianReviewCompleted(thread, turn, target, action, status, startedAt, completedAt);
        View() == Next(s, f) && out == Emitted(s, f)
    {
      if status.None? || Unsigned(startedAt).None? {
        return [];
      }
      var review := PendingReview(thread, turn, target, GuardianSubject(action), startedAt,
                                  GuardianWantsPermissions(action), GuardianWantsNetwork(action));
      if Unsigned(completedAt).None? {
        return [];
      }
      var v := Verdict(review, Guardian, status.value, NoResolution);
      ghost var s, f := View(), GuardianReviewCompleted(thread, turn, target, action, status, startedAt, completedAt);
      assert Concludes(s, f) == Some(v);
      VerdictStep(s, f);
      hide Next, Emitted, RecordReview, SummaryKey;
      out := EmitReviewEvent(v);
    }

    // -------------------------------------------------------------------------------------------
    // Tool items
    // -------------------------------------------------------------------------------------------

    method IngestItemStarted(thread: ThreadId, turn: TurnId, item: ThreadItem, at: int)
      modifies this`started
      ensures View() == Next(old(View()), ItemStarted(thread, turn, item, at))
    {
      if item.Untracked? || Unsigned(at).None? {
        return;
      }
      started := started[ToolKey(thread, turn, item.id) := at];
    }

    method IngestItemCompleted(thread: ThreadId, turn: TurnId, item: ThreadItem, at: int) returns (out: seq<Event>)
      modifies this`turns, this`started, this`summaries
      ensures var s, f := old(View()), ItemCompleted(thread, turn, item, at);
        View() == Next(s, f) && out == Emitted(s, f)
    {
      hide Next, Emitted, Record;
      CompletionStep(View(), ItemCompleted(thread, turn, item, at));
      out := [];
      if item.Untracked? || turn !in turns {
        return;
      }
      turns := turns[turn := turns[turn].(toolCounts := Record(turns[turn].toolCounts, item.kind))];
      var key := ToolKey(thread, turn, item.id);
      if key !in started {
        assert started - {key} == started;
        return;
      }
      var startedAt := started[key];
      started := started - {key};
      if Unsigned(at).None? {
        return;
      }
      assert ContextOf(View(), thread) == ContextOf(old(View()), thread);
      var context := ThreadContext(thread);
      hide ContextOf;
      if context.NoContext? {
        return;
      }
      if Terminal(item) {
        out := [ToolItemEvent(key, item.kind, startedAt, at, if key in summaries then summaries[key] else NO_REVIEWS)];
      }
      summaries := summaries - {key};
    }

    // -------------------------------------------------------------------------------------------
    // Ingest
    // -------------------------------------------------------------------------------------------

    method IngestCompaction(thread: ThreadId, turn: TurnId) returns (out: seq<Event>)
      ensures View() == Next(View(), Compaction(thread, turn)) && out == Emitted(View(), Compaction(thread, turn))
    {
      var context := ThreadContext(thread);
      hide ContextOf;
      out := if context.Context? then [CompactionEvent(thread, turn)] else [];
    }

    method IngestGuardianReview(thread: ThreadId, turn: TurnId) returns (out: seq<Event>)
      ensures View() == Next(View(), GuardianReview(thread, turn))
        && out == Emitted(View(), GuardianReview(thread, turn))
    {
      var context := ThreadContext(thread);
      hide ContextOf;
      out := if context.Context? then [GuardianEvent(thread, turn)] else [];
    }

    /** Facts that become events without touching any state. */
    method EmitEach(names: seq<string>) returns (out: seq<Event>)
      ensures out == Named(names)
    {
      out := [];
      var i := 0;
      while i < |names|
        invariant 0 <= i <= |names| && out + Named(names[i..]) == Named(names)
      {
        assert names[i..][1..] == names[i + 1..];
        out := out + [OtherEvent(names[i])];
        i := i + 1;
      }
      assert out + [] == out;
    }

    method IngestResponse(f: Fact) returns (out: seq<Event>)
      requires f.ThreadOpened? || f.TurnStartResponse? || f.TurnSteerResponse?
      modifies this
      ensures View() == Next(old(View()), f) && out == Emitted(old(View()), f)
    {
      hide Next, Emitted;
      match f
      case ThreadOpened(connection, thread, metadata) =>
        out := EmitThreadInitialized(connection, thread, metadata);
      case TurnStartResponse(connection, request, turn) =>
        out := IngestTurnStartResponse(connection, request, turn);
      case TurnSteerResponse(connection, request, turn) =>
        out := IngestTurnSteerResponse(connection, request, turn);
    }

    method IngestNotification(f: Fact) returns (out: seq<Event>)
      requires f.ItemStarted? || f.ItemCompleted? || f.GuardianReviewCompleted? || f.TurnStarted? || f.TurnDiffUpdated?
            || f.TurnCompleted?
      modifies this
      ensures View() == Next(old(View()), f) && out == Emitted(old(View()), f)
    {
      out := [];
      match f
      case ItemStarted(thread, turn, item, at) =>
        assert Emitted(View(), f) == [];
        hide Next, Emitted;
        IngestItemStarted(thread, turn, item, at);
      case ItemCompleted(thread, turn, item, at) =>
        hide Next, Emitted;
        out := IngestItemCompleted(thread, turn, item, at);
      case GuardianReviewCompleted(thread, turn, target, action, status, startedAt, completedAt) =>
        hide Next, Emitted;
        out := IngestGuardianReviewCompleted(thread, turn, target, action, status, startedAt, completedAt);
      case TurnStarted(turn, clock) =>
        SilentStep(View(), f);
        hide Next, Emitted;
        IngestTurnStarted(turn, clock);
      case TurnDiffUpdated(thread, turn, diff) =>
        SilentStep(View(), f);
        hide Next, Emitted;
        IngestTurnDiffUpdated(thread, turn, diff);
      case TurnCompleted(turn, completion) =>
        hide Next, Emitted;
        out := IngestTurnCompleted(turn, completion);
    }

    method IngestCustom(f: Fact) returns (out: seq<Event>)
      requires f.SubAgentStarted? || f.Compaction? || f.GuardianReview? || f.TurnResolvedConfig? || f.TurnTokenUsage?
            || f.TurnProfile? || f.TurnCodexError? || f.Stateless?
      modifies this
      ensures View() == Next(old(View()), f) && out == Emitted(old(View()), f)
    {
      out := [];
      match f
      case SubAgentStarted(thread, parent, sessionId, source) =>
        hide Next, Emitted;
        out := IngestSubagentThreadStarted(thread, parent, sessionId, source);
      case Compaction(thread, turn) =>
        hide Next, Emitted;
        out := IngestCompaction(thread, turn);
      case GuardianReview(thread, turn) =>
        hide Next, Emitted;
        out := IngestGuardianReview(thread, turn);
      case TurnResolvedConfig(turn, thread, images, config) =>
        hide Next, Emitted;
        out := IngestTurnResolvedConfig(turn, thread, images, config);
      case TurnTokenUsage(turn, thread, usage) =>
        hide Next, Emitted;
        out := IngestTurnTokenUsage(turn, thread, usage);
      case TurnProfile(turn, profile) =>
        hide Next, Emitted;
        out := IngestTurnProfile(turn, profile);
      case TurnCodexError(turn, thread, error) =>
        SilentStep(View(), f);
        hide Next, Emitted;
        IngestTurnCodexError(turn, thread, error);
      case Stateless(names) =>
        StatelessStep(View(), f);
        hide Next, Emitted;
        out := EmitEach(names);
    }

    /** One fact: the reducer's maps and output are the specification's. */
    method Ingest(f: Fact) returns (out: seq<Event>)
      modifies this
      ensures View() == Next(old(View()), f)
      ensures out == Emitted(old(View()), f)
    {
      out := [];
      if f.Initialize? {
        connections := connections[f.connection := f.state];
      } else if f.RequestSent? {
        requests := requests[(f.connection, f.request) := f.what];
      } else if f.ApprovalRequested? {
        assert Emitted(View(), f) == [];
        hide Next, Emitted;
        IngestServerRequest(f.request, f.thread, f.turn, f.itemId, f.approval, f.startedAt);
      } else if Settles(f) {
        hide Next, Emitted;
        out := SettleReview(f.request, f);
      } else if f.ErrorResponse? {
        hide Next, Emitted;
        out := IngestErrorResponse(f.connection, f.request);
      } else if f.ThreadOpened? || f.TurnStartResponse? || f.TurnSteerResponse? {
        hide Next, Emitted;
        out := IngestResponse(f);
      } else if f.ItemStarted? || f.ItemCompleted? || f.GuardianReviewCompleted? || f.TurnStarted? || f.TurnDiffUpdated?
                || f.TurnCompleted? {
        hide Next, Emitted;
        out := IngestNotification(f);
      } else {
        hide Next, Emitted;
        out := IngestCustom(f);
      }
    }
  }
}

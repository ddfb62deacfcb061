/** Turns: the order of the facts of a turn does not matter, and exactly when a ready turn is left waiting. */
module AnalyticsOrder {
  import opened Options
  import opened AnalyticsModel
  import AnalyticsTurns

  // ---------------------------------------------------------------------------------------------
  // Order independence
  // ---------------------------------------------------------------------------------------------

  /** The four facts a turn event joins, agreeing on thread and image count. */
  datatype Join = Join(
    turn: TurnId, connection: ConnectionId, request: RequestId, thread: ThreadId, images: nat,
    config: string, profile: string, completion: string)

  function StartFact(j: Join): Fact { TurnStartResponse(j.connection, j.request, j.turn) }

  function ConfigFact(j: Join): Fact { TurnResolvedConfig(j.turn, j.thread, j.images, j.config) }

  function ProfileFact(j: Join): Fact { TurnProfile(j.turn, j.profile) }

  function CompletionFact(j: Join): Fact { TurnCompleted(j.turn, j.completion) }

  /** The turn's request was seen, its connection and thread are registered, and of the turn itself none of
      the four facts arrived yet; anything else may have. */
  ghost predicate Prepared(s: State, j: Join) {
    var t := TurnOf(s, j.turn);
    && Settled(s, j, s)
    && (j.connection, j.request) in s.requests
    && s.requests[(j.connection, j.request)] == TurnStart(j.thread, j.images)
    && t.connection.None? && t.config.None? && t.profile.None? && t.completed.None?
  }

  /** Connection and thread are registered as they were in `base`. */
  ghost predicate Settled(base: State, j: Join, s: State) {
    && j.connection in base.connections && ThreadKnown(base, j.thread)
    && j.connection in s.connections && s.connections[j.connection] == base.connections[j.connection]
    && ThreadKnown(s, j.thread) && s.threads[j.thread].metadata == base.threads[j.thread].metadata
  }

  /** A fact that concerns neither the turn, nor its request, connection or thread. */
  predicate Apart(f: Fact, j: Join) {
    match f
    case Initialize(c, _) => c != j.connection
    case RequestSent(c, r, _) => (c, r) != (j.connection, j.request)
    case ThreadOpened(_, thread, _) => thread != j.thread
    case SubAgentStarted(thread, _, _, _) => thread != j.thread
    case TurnStartResponse(c, r, turn) => (c, r) != (j.connection, j.request) && turn != j.turn
    case TurnSteerResponse(c, r, turn) => (c, r) != (j.connection, j.request) && turn != j.turn
    case ErrorResponse(c, r) => (c, r) != (j.connection, j.request)
    case ItemCompleted(_, turn, _, _) => turn != j.turn
    case TurnStarted(turn, _) => turn != j.turn
    case TurnDiffUpdated(_, turn, _) => turn != j.turn
    case TurnCompleted(turn, _) => turn != j.turn
    case TurnResolvedConfig(turn, _, _, _) => turn != j.turn
    case TurnTokenUsage(turn, _, _) => turn != j.turn
    case TurnProfile(turn, _) => turn != j.turn
    case TurnCodexError(turn, _, _) => turn != j.turn
    case _ => true
  }

  /** An optional fact of the turn: it may say anything about the turn but what its event requires, and if it
      names a thread, it names the turn's. */
  predicate Optional(f: Fact, j: Join) {
    match f
    case TurnSteerResponse(c, r, turn) => (c, r) != (j.connection, j.request) && turn == j.turn
    case ItemCompleted(_, turn, _, _) => turn == j.turn
    case TurnStarted(turn, _) => turn == j.turn
    case TurnDiffUpdated(thread, turn, _) => thread == j.thread && turn == j.turn
    case TurnTokenUsage(turn, thread, _) => thread == j.thread && turn == j.turn
    case TurnCodexError(turn, thread, _) => thread == j.thread && turn == j.turn
    case _ => false
  }

  /** Where the four facts stand in a sequence: in any order, among facts that are apart or optional. */
  datatype Order = Order(start: nat, config: nat, profile: nat, completion: nat)

  function Max(a: nat, b: nat): nat { if a < b then b else a }

  function LastOf(o: Order): nat { Max(Max(o.start, o.config), Max(o.profile, o.completion)) }

  ghost predicate Placed(facts: seq<Fact>, j: Join, o: Order) {
    && o.start < |facts| && o.config < |facts| && o.profile < |facts| && o.completion < |facts|
    && facts[o.start] == StartFact(j) && facts[o.config] == ConfigFact(j)
    && facts[o.profile] == ProfileFact(j) && facts[o.completion] == CompletionFact(j)
    && forall k :: 0 <= k < |facts| && k != o.start && k != o.config && k != o.profile && k != o.completion ==>
         Apart(facts[k], j) || Optional(facts[k], j)
  }

  /** None of the first k facts is an optional one. */
  ghost predicate Plain(facts: seq<Fact>, j: Join, k: nat)
    requires k <= |facts|
  {
    forall i :: 0 <= i < k ==> !Optional(facts[i], j)
  }

  /** Which of the four facts came in. */
  datatype Seen = Seen(start: bool, config: bool, profile: bool, completion: bool)

  const NONE_SEEN: Seen := Seen(false, false, false, false)
  const ALL_SEEN: Seen := Seen(true, true, true, true)

  function SeenBefore(o: Order, k: nat): Seen {
    Seen(o.start < k, o.config < k, o.profile < k, o.completion < k)
  }

  /** The fact is one of the four, for the first time. */
  predicate Adds(f: Fact, j: Join, had: Seen, has: Seen) {
    || (f == StartFact(j) && !had.start && has == had.(start := true))
    || (f == ConfigFact(j) && !had.config && has == had.(config := true))
    || (f == ProfileFact(j) && !had.profile && has == had.(profile := true))
    || (f == CompletionFact(j) && !had.completion && has == had.(completion := true))
  }

  /** The turn's record after some of the four facts. */
  function Joined(t: Turn, j: Join, had: Seen): Turn {
    t.(connection := if had.start then Some(j.connection) else t.connection,
       thread := if had.start || had.config then Some(j.thread) else t.thread,
       images := if had.start || had.config then Some(j.images) else t.images,
       config := if had.config then Some(j.config) else t.config,
       profile := if had.profile then Some(j.profile) else t.profile,
       completed := if had.completion then Some(j.completion) else t.completed)
  }

  /** Of what the event requires, the record holds exactly what some of the four facts said. */
  predicate Holding(t: Turn, j: Join, had: Seen) {
    && t == Joined(t, j, had)
    && (!had.start ==> t.connection.None?) && (!had.config ==> t.config.None?)
    && (!had.profile ==> t.profile.None?) && (!had.completion ==> t.completed.None?)
  }

  /** What the record holds then: the last of the four facts empties it. */
  function Kept(had: Seen): Seen {
    if had == ALL_SEEN then NONE_SEEN else had
  }

  /** The request is still to be answered, if the start response did not come in yet. */
  ghost predicate Asked(j: Join, s: State, had: Seen) {
    !had.start ==>
      (j.connection, j.request) in s.requests && s.requests[(j.connection, j.request)] == TurnStart(j.thread, j.images)
  }

  /** The state while the four facts come in; `plain` if no optional fact did. */
  ghost predicate Midway(base: State, j: Join, s: State, had: Seen, plain: bool) {
    && Settled(base, j, s)
    && Asked(j, s, had)
    && Holding(TurnOf(s, j.turn), j, Kept(had))
    && (plain ==> Untouched(base, j, s, had))
  }

  /** Nothing but the four facts was written to the turn. */
  ghost predicate Untouched(base: State, j: Join, s: State, had: Seen) {
    if had == ALL_SEEN then j.turn !in s.turns else TurnOf(s, j.turn) == Joined(TurnOf(base, j.turn), j, had)
  }

  lemma SettledStays(base: State, j: Join, s: State, f: Fact)
    requires Settled(base, j, s)
    requires f.Initialize? ==> f.connection != j.connection
    requires f.ThreadOpened? || f.SubAgentStarted? ==> f.thread != j.thread
    ensures Settled(base, j, Next(s, f))
  {
    hide NextRequests, NextTurns, NextStarted, NextReviews, NextSummaries, SubAgentThread;
    assert Next(s, f).threads == NextThreads(s, f) && Next(s, f).connections == NextConnections(s, f);
  }

  lemma RequestStays(j: Join, s: State, f: Fact)
    requires (j.connection, j.request) in s.requests
    requires Apart(f, j) || Optional(f, j) || f == ConfigFact(j) || f == ProfileFact(j) || f == CompletionFact(j)
    ensures (j.connection, j.request) in Next(s, f).requests
    ensures Next(s, f).requests[(j.connection, j.request)] == s.requests[(j.connection, j.request)]
  {
    hide NextTurns, NextStarted, NextReviews, NextSummaries, NextThreads;
    assert Next(s, f).requests == NextRequests(s, f);
  }

  // A fact that is apart

  lemma ApartIsNotMine(j: Join, s: State, f: Fact)
    requires Apart(f, j)
    ensures !AnalyticsTurns.Mine(s, f, j.turn)
    ensures !(EmitsTurn(s, f) && f.turn == j.turn)
  {
    hide Touched, Ready;
  }

  lemma ApartKeeps(base: State, j: Join, s: State, had: Seen, plain: bool, f: Fact)
    requires Midway(base, j, s, had, plain) && Apart(f, j)
    ensures Midway(base, j, Next(s, f), had, plain)
    ensures !(EmitsTurn(s, f) && f.turn == j.turn)
  {
    hide Joined, Next, EmitsTurn, Touches, Settled, Touched, Holding;
    SettledStays(base, j, s, f);
    if !had.start {
      RequestStays(j, s, f);
    }
    ApartIsNotMine(j, s, f);
    AnalyticsTurns.TurnsAfter(s, f, j.turn);
  }

  // An optional fact

  lemma OptionalWrites(j: Join, s: State, f: Fact, had: Seen)
    requires Optional(f, j) && AnalyticsTurns.Mine(s, f, j.turn) && Holding(TurnOf(s, j.turn), j, had)
    ensures Holding(Touched(s, f), j, had)
  {
    hide TurnOf, Record;
  }

  lemma NotAllSeen(s: State, j: Join, t: Turn, had: Seen)
    requires Holding(t, j, had) && had != ALL_SEEN
    ensures !Ready(s, t)
  {
  }

  lemma OptionalKeeps(base: State, j: Join, s: State, had: Seen, plain: bool, f: Fact)
    requires Midway(base, j, s, had, plain) && Optional(f, j)
    ensures Midway(base, j, Next(s, f), had, false)
    ensures !(EmitsTurn(s, f) && f.turn == j.turn)
  {
    hide Next, Touches, Settled, Touched, Holding, Ready, Untouched;
    SettledStays(base, j, s, f);
    if !had.start {
      RequestStays(j, s, f);
    }
    hide Optional;
    if AnalyticsTurns.Mine(s, f, j.turn) {
      OptionalWrites(j, s, f, Kept(had));
      NotAllSeen(s, j, Touched(s, f), Kept(had));
    }
    AnalyticsTurns.TurnsAfter(s, f, j.turn);
  }

  // One of the four facts

  lemma FourWrites(t: Turn, j: Join, s: State, had: Seen, f: Fact, has: Seen)
    requires Asked(j, s, had) && TurnOf(s, j.turn) == Joined(t, j, had) && Adds(f, j, had, has)
    ensures AnalyticsTurns.Mine(s, f, j.turn) && Triggers(f)
    ensures Touched(s, f) == Joined(t, j, has)
  {
    hide TurnOf;
  }

  lemma HoldingMore(t: Turn, j: Join, had: Seen, f: Fact, has: Seen)
    requires Holding(t, j, had) && Adds(f, j, had, has)
    ensures had != ALL_SEEN && Holding(Joined(t, j, has), j, has)
  {
  }

  lemma ReadyWhenAllSeen(base: State, j: Join, s: State, t: Turn, has: Seen)
    requires Settled(base, j, s) && Holding(t, j, has)
    ensures Ready(s, t) <==> has == ALL_SEEN
  {
  }

  /** It emits the turn if it is the last of the four, and only then. */
  lemma OneOfFour(base: State, j: Join, s: State, had: Seen, plain: bool, f: Fact, has: Seen)
    requires Midway(base, j, s, had, plain) && Adds(f, j, had, has)
    ensures had != ALL_SEEN && AnalyticsTurns.Mine(s, f, j.turn)
    ensures Holding(Touched(s, f), j, has)
    ensures plain ==> Touched(s, f) == Joined(TurnOf(base, j.turn), j, has)
    ensures EmitsTurn(s, f) <==> has == ALL_SEEN
  {
    var t := TurnOf(s, j.turn);
    assert had != ALL_SEEN && t == Joined(t, j, had);
    hide Touches, Touched, Joined, Ready, TurnOf, Triggers, Asked, Holding, Adds;
    FourWrites(t, j, s, had, f, has);
    HoldingMore(t, j, had, f, has);
    ReadyWhenAllSeen(base, j, s, Touched(s, f), has);
    if plain {
      FourWrites(TurnOf(base, j.turn), j, s, had, f, has);
    }
  }

  /** What the turn event says once all four facts are in and no optional fact came. */
  ghost function JoinedEvents(base: State, j: Join): seq<Event>
    requires Settled(base, j, base)
  {
    TurnEvents(base, j.turn, Joined(TurnOf(base, j.turn), j, ALL_SEEN))
  }

  /** No turn event for this turn in a list of events. */
  ghost predicate NoTurnEvent(out: seq<Event>, turn: TurnId) {
    forall i :: 0 <= i < |out| && out[i].TurnEvent? ==> out[i].payload.turnId != turn
  }

  /** One turn event for the turn, which comes first and says of everything required what the four facts said. */
  ghost predicate OneTurnEvent(base: State, j: Join, out: seq<Event>)
    requires Settled(base, j, base)
  {
    && |out| > 0 && out[0].TurnEvent? && NoTurnEvent(out[1..], j.turn)
    && var p := out[0].payload;
       && p.turnId == j.turn && p.thread == j.thread && p.images == j.images && p.config == j.config
       && p.profile == j.profile && p.completed == j.completion
       && p.connection == base.connections[j.connection] && Some(p.metadata) == base.threads[j.thread].metadata
  }

  lemma EventsOfJoin(base: State, j: Join, s: State, t: Turn)
    requires Settled(base, j, s) && Holding(t, j, ALL_SEEN)
    ensures Ready(s, t) && Ready(base, t) && TurnEvents(s, j.turn, t) == TurnEvents(base, j.turn, t)
    ensures OneTurnEvent(base, j, TurnEvents(s, j.turn, t))
  {
  }

  lemma LastOfFour(base: State, j: Join, s: State, f: Fact, plain: bool)
    requires Settled(base, j, base) && Settled(base, j, s)
    requires EmitsTurn(s, f) && f.turn == j.turn && Holding(Touched(s, f), j, ALL_SEEN)
    requires plain ==> Touched(s, f) == Joined(TurnOf(base, j.turn), j, ALL_SEEN)
    ensures OneTurnEvent(base, j, Emitted(s, f))
    ensures plain ==> Emitted(s, f) == JoinedEvents(base, j)
  {
    hide TurnOf, Touched, Emitted, Settled, Touches, TurnEvents, Holding, Joined, OneTurnEvent;
    AnalyticsTurns.TurnEventsOnly(s, f);
    EventsOfJoin(base, j, s, Touched(s, f));
  }

  lemma FourKeeps(base: State, j: Join, s: State, had: Seen, plain: bool, f: Fact, has: Seen)
    requires Settled(base, j, base) && Midway(base, j, s, had, plain)
    requires Adds(f, j, had, has)
    ensures Midway(base, j, Next(s, f), has, plain)
    ensures EmitsTurn(s, f) <==> has == ALL_SEEN
    ensures has == ALL_SEEN ==> OneTurnEvent(base, j, Emitted(s, f))
    ensures has == ALL_SEEN && plain ==> Emitted(s, f) == JoinedEvents(base, j)
  {
    hide Joined, Next, EmitsTurn, Touches, Touched, Emitted, Settled, JoinedEvents, OneTurnEvent;
    OneOfFour(base, j, s, had, plain, f, has);
    SettledStays(base, j, s, f);
    if !has.start {
      RequestStays(j, s, f);
    }
    AnalyticsTurns.TurnsAfter(s, f, j.turn);
    if has == ALL_SEEN {
      LastOfFour(base, j, s, f, plain);
      NothingHeld(j);
    }
    hide Holding;
  }

  lemma NothingHeld(j: Join)
    ensures Holding(NEW_TURN, j, NONE_SEEN)
  {
  }

  lemma QuietStep(s: State, f: Fact, turn: TurnId)
    requires !(EmitsTurn(s, f) && f.turn == turn)
    ensures NoTurnEvent(Emitted(s, f), turn)
  {
    AnalyticsTurns.TurnEventsOnly(s, f);
    hide EmitsTurn, Touched, Emitted;
  }

  // The whole sequence

  function OutputAt(base: State, facts: seq<Fact>, k: nat): seq<Event>
    requires k < |facts|
  {
    Emitted(Run(base, facts[..k]), facts[k])
  }

  /** After k facts the state is midway by exactly those of the four that stand before k. */
  ghost predicate MidwayAt(base: State, j: Join, facts: seq<Fact>, o: Order, k: nat)
    requires k <= |facts|
  {
    Midway(base, j, Run(base, facts[..k]), SeenBefore(o, k), Plain(facts, j, k))
  }

  lemma MidwayAtFirst(base: State, j: Join, facts: seq<Fact>, o: Order)
    requires Prepared(base, j)
    ensures MidwayAt(base, j, facts, o, 0)
  {
    assert Joined(TurnOf(base, j.turn), j, NONE_SEEN) == TurnOf(base, j.turn);
  }

  lemma PlacedOne(facts: seq<Fact>, j: Join, o: Order, k: nat)
    requires Placed(facts, j, o) && k < |facts|
    ensures if Apart(facts[k], j) || Optional(facts[k], j)
            then SeenBefore(o, k + 1) == SeenBefore(o, k) && k != LastOf(o)
            else && Adds(facts[k], j, SeenBefore(o, k), SeenBefore(o, k + 1))
                 && (k == LastOf(o) <==> SeenBefore(o, k + 1) == ALL_SEEN)
                 && facts[k].turn == j.turn
  {
  }

  /** What the fact at the last of the four positions puts out, and what the others do. */
  ghost predicate Says(base: State, j: Join, out: seq<Event>, last: bool, plain: bool)
    requires Settled(base, j, base)
  {
    if last then OneTurnEvent(base, j, out) && (plain ==> out == JoinedEvents(base, j)) else NoTurnEvent(out, j.turn)
  }

  lemma StepFrom(base: State, j: Join, s: State, had: Seen, plain: bool, f: Fact, has: Seen)
    requires Settled(base, j, base) && Midway(base, j, s, had, plain)
    requires if Apart(f, j) || Optional(f, j) then has == had else Adds(f, j, had, has) && f.turn == j.turn
    ensures Midway(base, j, Next(s, f), has, plain && !Optional(f, j))
    ensures Says(base, j, Emitted(s, f), !Apart(f, j) && !Optional(f, j) && has == ALL_SEEN, plain)
  {
    hide Next, EmitsTurn, Emitted, Apart, Optional, Midway, Settled, NoTurnEvent, JoinedEvents, OneTurnEvent, Adds;
    if Optional(f, j) {
      OptionalKeeps(base, j, s, had, plain, f);
      QuietStep(s, f, j.turn);
    } else if Apart(f, j) {
      ApartKeeps(base, j, s, had, plain, f);
      QuietStep(s, f, j.turn);
    } else {
      FourKeeps(base, j, s, had, plain, f, has);
      if has != ALL_SEEN {
        QuietStep(s, f, j.turn);
      }
    }
  }

  lemma PlainNext(facts: seq<Fact>, j: Join, k: nat)
    requires k < |facts|
    ensures Plain(facts, j, k + 1) == (Plain(facts, j, k) && !Optional(facts[k], j))
  {
    hide Optional;
  }

  lemma StepAt(base: State, j: Join, facts: seq<Fact>, o: Order, k: nat)
    requires Settled(base, j, base) && Placed(facts, j, o) && k < |facts| && MidwayAt(base, j, facts, o, k)
    ensures MidwayAt(base, j, facts, o, k + 1)
    ensures Says(base, j, OutputAt(base, facts, k), k == LastOf(o), Plain(facts, j, k))
  {
    hide Next, Emitted, Apart, Optional, Midway, Settled, Says, Plain, Placed, SeenBefore, LastOf, Adds;
    assert facts[..k + 1][..k] == facts[..k];
    PlacedOne(facts, j, o, k);
    PlainNext(facts, j, k);
    StepFrom(base, j, Run(base, facts[..k]), SeenBefore(o, k), Plain(facts, j, k), facts[k], SeenBefore(o, k + 1));
  }

  lemma {:induction false} AlwaysMidway(base: State, j: Join, facts: seq<Fact>, o: Order, k: nat)
    requires Prepared(base, j) && Placed(facts, j, o) && k <= |facts|
    ensures Settled(base, j, base) && MidwayAt(base, j, facts, o, k)
    decreases k
  {
    assert Settled(base, j, base);
    hide MidwayAt, Placed, Prepared, OutputAt, Says, Settled;
    if k == 0 {
      MidwayAtFirst(base, j, facts, o);
    } else {
      AlwaysMidway(base, j, facts, o, k - 1);
      StepAt(base, j, facts, o, k - 1);
    }
  }

  /** Whatever the order of the four facts, whatever unrelated facts and whatever optional facts of the turn come
      between them, the turn is emitted exactly once, on the last of the four, with the same required fields; and
      when no optional fact came before, with the very same events. */
  lemma OrderIndependence(base: State, j: Join, facts: seq<Fact>, o: Order)
    requires Prepared(base, j) && Placed(facts, j, o)
    ensures OneTurnEvent(base, j, OutputAt(base, facts, LastOf(o)))
    ensures Plain(facts, j, LastOf(o)) ==> OutputAt(base, facts, LastOf(o)) == JoinedEvents(base, j)
    ensures forall k :: 0 <= k < |facts| && k != LastOf(o) ==> NoTurnEvent(OutputAt(base, facts, k), j.turn)
    ensures Holding(TurnOf(Run(base, facts), j.turn), j, NONE_SEEN)
    ensures Plain(facts, j, |facts|) ==> j.turn !in Run(base, facts).turns
  {
    AllAtEnd(base, j, facts, o);
    assert LastOf(o) < |facts|;
    hide MidwayAt, Placed, OutputAt, JoinedEvents, NoTurnEvent, OneTurnEvent, Run, Plain, Holding, LastOf;
    forall k | 0 <= k < |facts| ensures Says(base, j, OutputAt(base, facts, k), k == LastOf(o), Plain(facts, j, k)) {
      AlwaysMidway(base, j, facts, o, k);
      StepAt(base, j, facts, o, k);
    }
    assert Says(base, j, OutputAt(base, facts, LastOf(o)), true, Plain(facts, j, LastOf(o)));
  }

  lemma AllAtEnd(base: State, j: Join, facts: seq<Fact>, o: Order)
    requires Prepared(base, j) && Placed(facts, j, o)
    ensures Holding(TurnOf(Run(base, facts), j.turn), j, NONE_SEEN)
    ensures Plain(facts, j, |facts|) ==> j.turn !in Run(base, facts).turns
  {
    AlwaysMidway(base, j, facts, o, |facts|);
    assert SeenBefore(o, |facts|) == ALL_SEEN;
    hide Run, Holding, Settled, Plain, Prepared, Placed, SeenBefore;
    assert facts[..|facts|] == facts;
  }

  // ---------------------------------------------------------------------------------------------
  // Ready turns left waiting
  // ---------------------------------------------------------------------------------------------

  /** The turn has all that its event needs, and yet it was not emitted. */
  predicate Waiting(s: State, turn: TurnId) {
    turn in s.turns && Ready(s, s.turns[turn])
  }

  /** A turn that got its start response has a thread and an image count. */
  predicate ShapedTurn(t: Turn) {
    t.connection.Some? ==> t.thread.Some? && t.images.Some?
  }

  ghost predicate Shaped(s: State) {
    forall turn :: turn in s.turns ==> ShapedTurn(s.turns[turn])
  }

  lemma TouchShaped(s: State, f: Fact)
    requires Touches(s, f) && ShapedTurn(TurnOf(s, f.turn))
    ensures ShapedTurn(Touched(s, f))
  {
    hide TurnOf, Record;
  }

  lemma NextShaped(s: State, f: Fact)
    requires Shaped(s)
    ensures Shaped(Next(s, f))
  {
    hide Next, Touches, Touched, EmitsTurn;
    forall turn | turn in Next(s, f).turns ensures ShapedTurn(Next(s, f).turns[turn]) {
      AnalyticsTurns.TurnsAfter(s, f, turn);
      if Touches(s, f) {
        TouchShaped(s, f);
      }
    }
  }

  lemma {:induction false} RunShaped(facts: seq<Fact>)
    ensures Shaped(Run(EMPTY, facts))
  {
    if facts != [] {
      hide Next, Shaped;
      RunShaped(facts[..|facts| - 1]);
      NextShaped(Run(EMPTY, facts[..|facts| - 1]), facts[|facts| - 1]);
    } else {
      assert Run(EMPTY, facts) == EMPTY;
    }
  }

  /** The context of a populated turn becomes complete by a fact after which the reducer does not look at turns:
      its connection is initialized, its thread becomes known, or a diff moves it to a known thread. */
  predicate LateContext(s: State, f: Fact, turn: TurnId) {
    && turn in s.turns && Populated(s.turns[turn]) && !Ready(s, s.turns[turn])
    && var t := s.turns[turn];
       match f
       case Initialize(c, _) => c == t.connection.value && ThreadKnown(s, t.thread.value)
       case ThreadOpened(c, thread, _) =>
         c in s.connections && thread == t.thread.value && t.connection.value in s.connections
       case SubAgentStarted(thread, _, _, _) => thread == t.thread.value && t.connection.value in s.connections
       case TurnDiffUpdated(thread, id, _) =>
         id == turn && ThreadKnown(s, thread) && t.connection.value in s.connections
       case _ => false
  }

  /** The fact makes the reducer look at the turn again, or moves the turn to an unknown thread. */
  predicate Disturbs(s: State, f: Fact, turn: TurnId) {
    || ((MatchedStart(s, f) || f.TurnResolvedConfig? || f.TurnTokenUsage? || f.TurnProfile? || f.TurnCompleted?)
        && f.turn == turn)
    || (f.TurnDiffUpdated? && f.turn == turn && !ThreadKnown(s, f.thread))
  }

  lemma KnownAfter(s: State, f: Fact, thread: ThreadId)
    ensures ThreadKnown(Next(s, f), thread) <==>
      || ThreadKnown(s, thread)
      || (f.ThreadOpened? && f.connection in s.connections && f.thread == thread)
      || (f.SubAgentStarted? && f.thread == thread)
  {
    hide NextRequests, NextTurns, NextStarted, NextReviews, NextSummaries;
    assert Next(s, f).threads == NextThreads(s, f);
  }

  /** Facts that write to a turn without looking at it again leave it populated or not, except that an error
      can name its thread. */
  lemma SilentTouch(s: State, f: Fact)
    requires Touches(s, f) && !Triggers(f)
    ensures var t, u := TurnOf(s, f.turn), Touched(s, f);
      && u.connection == t.connection && u.images == t.images && u.config == t.config && u.profile == t.profile
      && u.completed == t.completed
      && (u.thread == t.thread || (f.TurnCodexError? && t.thread.None?)
          || (f.TurnDiffUpdated? && u.thread == Some(f.thread)))
      && (f.TurnDiffUpdated? ==> u.thread == Some(f.thread))
  {
    hide TurnOf, Record;
  }

  /** Exactly when a turn waits after a fact: it did and the fact does not disturb it, or its context came late. */
  lemma WaitingAfter(s: State, f: Fact, turn: TurnId)
    requires Shaped(s)
    ensures Waiting(Next(s, f), turn) <==> if Waiting(s, turn) then !Disturbs(s, f, turn) else LateContext(s, f, turn)
  {
    hide Next, Touches, Disturbs, LateContext, Waiting, Shaped;
    if AnalyticsTurns.Mine(s, f, turn) {
      WaitingMine(s, f, turn);
    } else {
      WaitingOther(s, f, turn);
    }
  }

  lemma WaitingMine(s: State, f: Fact, turn: TurnId)
    requires Shaped(s) && AnalyticsTurns.Mine(s, f, turn)
    ensures Waiting(Next(s, f), turn) <==> if Waiting(s, turn) then !Disturbs(s, f, turn) else LateContext(s, f, turn)
  {
    if Triggers(f) {
      TriggersDisturb(s, f, turn);
    }
    hide Next, Touched, LateContext, ThreadKnown, Touches, Populated, Disturbs, Triggers;
    TurnsOnly(s, f, turn);
    AnalyticsTurns.TurnsAfter(s, f, turn);
    if !Triggers(f) {
      SilentMine(s, f, turn);
    }
  }

  lemma TriggersDisturb(s: State, f: Fact, turn: TurnId)
    requires AnalyticsTurns.Mine(s, f, turn) && Triggers(f)
    ensures Disturbs(s, f, turn) && !f.TurnDiffUpdated?
  {
  }

  lemma SilentMine(s: State, f: Fact, turn: TurnId)
    requires Shaped(s) && AnalyticsTurns.Mine(s, f, turn) && !Triggers(f)
    ensures Waiting(Next(s, f), turn) <==> if Waiting(s, turn) then !Disturbs(s, f, turn) else LateContext(s, f, turn)
  {
    hide Next, Touched, LateContext, ThreadKnown, Touches;
    TurnsOnly(s, f, turn);
    AnalyticsTurns.TurnsAfter(s, f, turn);
    SilentTouch(s, f);
    assert turn in s.turns ==> ShapedTurn(s.turns[turn]);
    hide Shaped;
  }

  lemma TurnsOnly(s: State, f: Fact, turn: TurnId)
    requires AnalyticsTurns.Mine(s, f, turn)
    ensures forall t: Turn :: Ready(Next(s, f), t) <==> Ready(s, t)
    ensures LateContext(s, f, turn) <==>
      && turn in s.turns && Populated(s.turns[turn]) && !Ready(s, s.turns[turn])
      && f.TurnDiffUpdated? && ThreadKnown(s, f.thread) && s.turns[turn].connection.value in s.connections
  {
    hide NextRequests, NextTurns, NextStarted, NextReviews, NextSummaries;
    assert Next(s, f).connections == s.connections && Next(s, f).threads == s.threads;
  }

  lemma NotMine(s: State, f: Fact, turn: TurnId)
    requires !AnalyticsTurns.Mine(s, f, turn)
    ensures !Disturbs(s, f, turn) && !(f.TurnDiffUpdated? && f.turn == turn)
    ensures !(EmitsTurn(s, f) && f.turn == turn)
    ensures Next(s, f).connections == NextConnections(s, f)
  {
  }

  lemma WaitingOther(s: State, f: Fact, turn: TurnId)
    requires Shaped(s) && !AnalyticsTurns.Mine(s, f, turn)
    ensures Waiting(Next(s, f), turn) <==> if Waiting(s, turn) then !Disturbs(s, f, turn) else LateContext(s, f, turn)
  {
    hide Next, Touched, ThreadKnown, Touches, Disturbs, EmitsTurn;
    NotMine(s, f, turn);
    AnalyticsTurns.TurnsAfter(s, f, turn);
    if turn in s.turns && s.turns[turn].thread.Some? {
      KnownAfter(s, f, s.turns[turn].thread.value);
    }
  }

  predicate LateAt(facts: seq<Fact>, k: nat, turn: TurnId)
    requires k < |facts|
  {
    LateContext(Run(EMPTY, facts[..k]), facts[k], turn)
  }

  predicate DisturbedAt(facts: seq<Fact>, k: nat, turn: TurnId)
    requires k < |facts|
  {
    Disturbs(Run(EMPTY, facts[..k]), facts[k], turn)
  }

  /** The turn's context came late at this position, and nothing disturbed the turn after that. */
  ghost predicate LeftAt(facts: seq<Fact>, k: nat, turn: TurnId)
    requires k < |facts|
  {
    LateAt(facts, k, turn) && forall m :: k < m < |facts| ==> !DisturbedAt(facts, m, turn)
  }

  lemma LeftLonger(facts: seq<Fact>, k: nat, turn: TurnId)
    requires k < |facts| - 1
    ensures LeftAt(facts, k, turn) <==> LeftAt(facts[..|facts| - 1], k, turn) && !DisturbedAt(facts, |facts| - 1, turn)
  {
    hide Run, LateContext, Disturbs;
    var n := |facts| - 1;
    assert facts[..n][..k] == facts[..k];
    forall m | k < m < n ensures DisturbedAt(facts[..n], m, turn) <==> DisturbedAt(facts, m, turn) {
      assert facts[..n][..m] == facts[..m];
    }
  }

  ghost predicate EverLeft(facts: seq<Fact>, turn: TurnId) {
    exists k :: 0 <= k < |facts| && LeftAt(facts, k, turn)
  }

  lemma LeftLast(facts: seq<Fact>, turn: TurnId)
    requires facts != []
    ensures LeftAt(facts, |facts| - 1, turn) <==> LateAt(facts, |facts| - 1, turn)
  {
  }

  lemma EverLeftStep(facts: seq<Fact>, turn: TurnId)
    requires facts != []
    ensures var n := |facts| - 1;
      EverLeft(facts, turn) <==> (EverLeft(facts[..n], turn) && !DisturbedAt(facts, n, turn)) || LateAt(facts, n, turn)
  {
    hide LeftAt, LateAt, DisturbedAt;
    var n := |facts| - 1;
    LeftLast(facts, turn);
    forall k | 0 <= k < n
      ensures LeftAt(facts, k, turn) <==> LeftAt(facts[..n], k, turn) && !DisturbedAt(facts, n, turn)
    {
      LeftLonger(facts, k, turn);
    }
    if EverLeft(facts[..n], turn) && !DisturbedAt(facts, n, turn) {
      var k :| 0 <= k < n && LeftAt(facts[..n], k, turn);
      assert LeftAt(facts, k, turn);
    }
  }

  /** Over every run: a ready turn is left waiting if and only if its context came late and nothing about the
      turn arrived since that makes the reducer look again. */
  lemma {:induction false} WaitingExactly(facts: seq<Fact>, turn: TurnId)
    ensures Waiting(Run(EMPTY, facts), turn) <==> exists k :: 0 <= k < |facts| && LeftAt(facts, k, turn)
  {
    if facts == [] {
      assert Run(EMPTY, facts) == EMPTY;
    } else {
      hide Next, Waiting, Shaped, LateContext, Disturbs, LeftAt;
      var n := |facts| - 1;
      WaitingExactly(facts[..n], turn);
      RunShaped(facts[..n]);
      WaitingAfter(Run(EMPTY, facts[..n]), facts[n], turn);
      NotBoth(Run(EMPTY, facts[..n]), facts[n], turn);
      EverLeftStep(facts, turn);
    }
  }

  lemma NotBoth(s: State, f: Fact, turn: TurnId)
    ensures !(Waiting(s, turn) && LateContext(s, f, turn))
  {
  }

  lemma RunFrom(s: State, facts: seq<Fact>)
    requires facts != []
    ensures Run(s, facts) == Run(Next(s, facts[0]), facts[1..])
  {
    hide Next;
    RunConcat(s, [facts[0]], facts[1..]);
    assert [facts[0]] + facts[1..] == facts;
    RunAppend(s, [], facts[0]);
    assert [] + [facts[0]] == [facts[0]];
  }

  /** Facts of the turn come in while its connection is unknown. */
  ghost predicate Gathering(t: Turn, j: Join, s: State, had: Seen) {
    && Asked(j, s, had) && TurnOf(s, j.turn) == Joined(t, j, had)
    && j.connection !in s.connections && ThreadKnown(s, j.thread)
    && (had != NONE_SEEN ==> j.turn in s.turns)
  }

  lemma GatherOne(t: Turn, j: Join, s: State, had: Seen, f: Fact, has: Seen)
    requires Gathering(t, j, s, had) && Adds(f, j, had, has) && (has.start || t.connection.None?)
    ensures Gathering(t, j, Next(s, f), has)
  {
    hide Next, Touched, Touches, Triggers, EmitsTurn, ThreadKnown, TurnOf, Adds, Asked;
    FourWrites(t, j, s, had, f, has);
    FourKeepContext(j, s, had, f, has);
    NotEmittedWithoutConnection(s, f);
    WrittenIsThere(s, f, j.turn);
  }

  lemma FourKeepContext(j: Join, s: State, had: Seen, f: Fact, has: Seen)
    requires Adds(f, j, had, has) && Asked(j, s, had)
    ensures Asked(j, Next(s, f), has)
    ensures Next(s, f).connections == s.connections
    ensures ThreadKnown(s, j.thread) ==> ThreadKnown(Next(s, f), j.thread)
  {
    hide NextTurns, NextStarted, NextReviews, NextSummaries;
    assert Next(s, f).threads == s.threads && Next(s, f).requests == NextRequests(s, f);
  }

  lemma WrittenIsThere(s: State, f: Fact, turn: TurnId)
    requires AnalyticsTurns.Mine(s, f, turn) && !EmitsTurn(s, f)
    ensures turn in Next(s, f).turns && TurnOf(Next(s, f), turn) == Touched(s, f)
  {
    hide Touched, Touches, EmitsTurn;
    AnalyticsTurns.TurnsAfter(s, f, turn);
  }

  lemma NotEmittedWithoutConnection(s: State, f: Fact)
    requires Touches(s, f) && (Touched(s, f).connection.Some? ==> Touched(s, f).connection.value !in s.connections)
    ensures !EmitsTurn(s, f)
  {
  }

  /** A whole family of runs leaves a ready turn waiting: its four facts, then its connection's initialization. */
  lemma LateInitialize(s: State, j: Join, state: Connection)
    requires Gathering(TurnOf(s, j.turn), j, s, NONE_SEEN) && TurnOf(s, j.turn).connection.None?
    ensures Waiting(Run(s, [StartFact(j), ConfigFact(j), ProfileFact(j), CompletionFact(j),
                            Initialize(j.connection, state)]), j.turn)
  {
    hide Run, Next, Gathering, Waiting, TurnOf;
    var t := TurnOf(s, j.turn);
    var f := [StartFact(j), ConfigFact(j), ProfileFact(j), CompletionFact(j), Initialize(j.connection, state)];
    var s1 := Next(s, f[0]);
    GatherOne(t, j, s, NONE_SEEN, f[0], Seen(true, false, false, false));
    var s2 := Next(s1, f[1]);
    GatherOne(t, j, s1, Seen(true, false, false, false), f[1], Seen(true, true, false, false));
    var s3 := Next(s2, f[2]);
    GatherOne(t, j, s2, Seen(true, true, false, false), f[2], Seen(true, true, true, false));
    var s4 := Next(s3, f[3]);
    GatherOne(t, j, s3, Seen(true, true, true, false), f[3], ALL_SEEN);
    InitializedLast(t, j, s4, state);
    RunFrom(s, f);
    assert f[1..] == [f[1], f[2], f[3], f[4]];
    RunFrom(s1, f[1..]);
    assert f[1..][1..] == [f[2], f[3], f[4]];
    RunFrom(s2, [f[2], f[3], f[4]]);
    assert [f[2], f[3], f[4]][1..] == [f[3], f[4]];
    RunFrom(s3, [f[3], f[4]]);
    assert [f[3], f[4]][1..] == [f[4]];
    RunFrom(s4, [f[4]]);
    assert [f[4]][1..] == [];
    RunNothing(Next(s4, f[4]));
  }

  lemma InitializedLast(t: Turn, j: Join, s: State, state: Connection)
    requires Gathering(t, j, s, ALL_SEEN)
    ensures Waiting(Next(s, Initialize(j.connection, state)), j.turn)
  {
  }

  lemma SentIsAsked(j: Join, s: State)
    requires ThreadKnown(s, j.thread) && s.connections == map[] && s.turns == map[]
    ensures var next := Next(s, RequestSent(j.connection, j.request, TurnStart(j.thread, j.images)));
      Gathering(TurnOf(next, j.turn), j, next, NONE_SEEN) && TurnOf(next, j.turn) == NEW_TURN
  {
  }

  lemma RunNothing(s: State)
    ensures Run(s, []) == s
  {
  }

  /** Such a run starts from the initial state: a subagent's thread is known before any connection is. */
  lemma LateContextExample(j: Join, started: Fact)
    requires started.SubAgentStarted? && started.thread == j.thread
    ensures var s := Run(EMPTY, [started, RequestSent(j.connection, j.request, TurnStart(j.thread, j.images))]);
      Gathering(TurnOf(s, j.turn), j, s, NONE_SEEN) && TurnOf(s, j.turn).connection.None?
  {
    hide Run;
    var sent := RequestSent(j.connection, j.request, TurnStart(j.thread, j.images));
    var s1 := Next(EMPTY, started);
    assert ThreadKnown(s1, j.thread) && s1.connections == map[] && s1.turns == map[];
    RunFrom(EMPTY, [started, sent]);
    assert [started, sent][1..] == [sent];
    RunFrom(s1, [sent]);
    assert [sent][1..] == [];
    RunNothing(Next(s1, sent));
    SentIsAsked(j, s1);
  }

  /** The fact gives the turn only a connection and a thread that are registered already. */
  predicate Timely(s: State, f: Fact, turn: TurnId) {
    && (MatchedStart(s, f) && f.turn == turn ==>
          f.connection in s.connections && ThreadKnown(s, s.requests[(f.connection, f.request)].thread))
    && ((f.TurnResolvedConfig? || f.TurnTokenUsage? || f.TurnDiffUpdated? || f.TurnCodexError?) && f.turn == turn ==>
          ThreadKnown(s, f.thread))
  }

  predicate AnchoredTurn(s: State, t: Turn) {
    && (t.connection.Some? ==> t.connection.value in s.connections)
    && (t.thread.Some? ==> ThreadKnown(s, t.thread.value))
  }

  lemma TouchAnchored(s: State, f: Fact)
    requires Touches(s, f) && Timely(s, f, f.turn) && AnchoredTurn(s, TurnOf(s, f.turn))
    ensures AnchoredTurn(s, Touched(s, f))
  {
    hide TurnOf, Record, ThreadKnown;
  }

  lemma AnchorsStay(s: State, f: Fact, t: Turn)
    requires AnchoredTurn(s, t)
    ensures AnchoredTurn(Next(s, f), t)
  {
    if t.thread.Some? {
      KnownAfter(s, f, t.thread.value);
    }
    assert Next(s, f).connections == NextConnections(s, f);
  }

  lemma AnchoredAfter(s: State, f: Fact, turn: TurnId)
    requires turn in s.turns ==> AnchoredTurn(s, s.turns[turn])
    requires Timely(s, f, turn)
    ensures turn in Next(s, f).turns ==> AnchoredTurn(Next(s, f), Next(s, f).turns[turn])
    ensures !LateContext(s, f, turn)
  {
    hide Next, Touches, Touched, Timely, EmitsTurn;
    AnalyticsTurns.TurnsAfter(s, f, turn);
    if AnalyticsTurns.Mine(s, f, turn) {
      TouchAnchored(s, f);
    }
    if turn in Next(s, f).turns {
      AnchorsStay(s, f, AnalyticsTurns.After(s, f, turn));
    }
  }

  /** When connections and threads are registered before a turn is tied to them, no reachable state holds a
      ready turn still waiting. */
  lemma {:induction false} NoneWaits(facts: seq<Fact>, turn: TurnId)
    requires forall k :: 0 <= k < |facts| ==> Timely(Run(EMPTY, facts[..k]), facts[k], turn)
    ensures var s := Run(EMPTY, facts); turn in s.turns ==> AnchoredTurn(s, s.turns[turn])
    ensures !Waiting(Run(EMPTY, facts), turn)
  {
    if facts != [] {
      hide Next, Timely, LateContext, Disturbs, Shaped, AnchoredTurn;
      var n := |facts| - 1;
      forall k | 0 <= k < n ensures Timely(Run(EMPTY, facts[..n][..k]), facts[..n][k], turn) {
        assert facts[..n][..k] == facts[..k];
      }
      NoneWaits(facts[..n], turn);
      var s := Run(EMPTY, facts[..n]);
      AnchoredAfter(s, facts[n], turn);
      RunShaped(facts[..n]);
      WaitingAfter(s, facts[n], turn);
    } else {
      assert Run(EMPTY, facts) == EMPTY;
    }
  }

  /** The usual opening of a turn leads to a state from which every order of its facts gives the same event. */
  lemma PreparedExample(j: Join, state: Connection, metadata: ThreadMetadata)
    ensures Prepared(Run(EMPTY, [Initialize(j.connection, state), ThreadOpened(j.connection, j.thread, metadata),
                                 RequestSent(j.connection, j.request, TurnStart(j.thread, j.images))]), j)
  {
    hide Run;
    var f, g := Initialize(j.connection, state), ThreadOpened(j.connection, j.thread, metadata);
    var h := RequestSent(j.connection, j.request, TurnStart(j.thread, j.images));
    var s1 := Next(EMPTY, f);
    assert j.connection in s1.connections && s1.turns == map[];
    var s2 := Next(s1, g);
    assert j.connection in s2.connections && ThreadKnown(s2, j.thread) && s2.turns == map[];
    SentIsPrepared(j, s2);
    RunFrom(EMPTY, [f, g, h]);
    assert [f, g, h][1..] == [g, h];
    RunFrom(s1, [g, h]);
    assert [g, h][1..] == [h];
    RunFrom(s2, [h]);
    assert [h][1..] == [];
    RunNothing(Next(s2, h));
  }

  lemma SentIsPrepared(j: Join, s: State)
    requires j.connection in s.connections && ThreadKnown(s, j.thread) && s.turns == map[]
    ensures Prepared(Next(s, RequestSent(j.connection, j.request, TurnStart(j.thread, j.images))), j)
  {
  }
}

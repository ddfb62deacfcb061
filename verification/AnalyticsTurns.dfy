/** Turns: what backs every turn event, and what its counters count.

    All statements compare the reducer's turn records with the facts themselves, over every run. */
module AnalyticsTurns {
  import opened Options
  import opened AnalyticsModel
  import AcceptedLines

  // ---------------------------------------------------------------------------------------------
  // Evidence in a run
  // ---------------------------------------------------------------------------------------------

  /** What a turn record holds. */
  datatype Field = StartField | ThreadField | ImagesField | ConfigField | ProfileField | CompletionField
                 | UsageField | ErrorField | ClockField | DiffField

  datatype Datum = Number(n: nat) | Text(s: string) | Clock(time: Option<nat>)

  /** The value a fact shows for a field of the turn. */
  function Shown(s: State, f: Fact, turn: TurnId, e: Field): Option<Datum> {
    match e
    case StartField => if MatchedStart(s, f) && f.turn == turn then Some(Number(f.connection)) else None
    case ThreadField =>
      if MatchedStart(s, f) && f.turn == turn then Some(Text(s.requests[(f.connection, f.request)].thread))
      else if (f.TurnResolvedConfig? || f.TurnTokenUsage? || f.TurnDiffUpdated?) && f.turn == turn
      then Some(Text(f.thread))
      else None
    case ImagesField =>
      if MatchedStart(s, f) && f.turn == turn then Some(Number(s.requests[(f.connection, f.request)].images))
      else if f.TurnResolvedConfig? && f.turn == turn then Some(Number(f.images))
      else None
    case ConfigField => if f.TurnResolvedConfig? && f.turn == turn then Some(Text(f.config)) else None
    case ProfileField => if f.TurnProfile? && f.turn == turn then Some(Text(f.profile)) else None
    case CompletionField => if f.TurnCompleted? && f.turn == turn then Some(Text(f.completion)) else None
    case UsageField => if f.TurnTokenUsage? && f.turn == turn then Some(Text(f.usage)) else None
    case ErrorField => if f.TurnCodexError? && f.turn == turn then Some(Text(f.error)) else None
    case ClockField =>
      if f.TurnStarted? && f.turn == turn then
        Some(Clock(if f.clock.Some? && f.clock.value >= 0 then Some(f.clock.value) else None))
      else None
    case DiffField => if f.TurnDiffUpdated? && f.turn == turn then Some(Text(f.diff)) else None
  }

  function ShownAt(facts: seq<Fact>, k: nat, turn: TurnId, e: Field): Option<Datum>
    requires k < |facts|
  {
    Shown(Run(EMPTY, facts[..k]), facts[k], turn, e)
  }

  /** The last value shown for a field at or after a position. */
  function Latest(facts: seq<Fact>, from: nat, turn: TurnId, e: Field): Option<Datum>
    decreases |facts|
  {
    if |facts| <= from then None
    else
      var n := |facts| - 1;
      var shown := ShownAt(facts, n, turn, e);
      if shown.Some? then shown else Latest(facts[..n], from, turn, e)
  }

  /** How many tracked items of a kind completed for the turn at or after a position. */
  function Completions(facts: seq<Fact>, from: nat, turn: TurnId, kind: ToolKind): nat
    decreases |facts|
  {
    if |facts| <= from then 0
    else
      var f := facts[|facts| - 1];
      Completions(facts[..|facts| - 1], from, turn, kind) +
      if AddsTool(f, turn) && f.item.kind == kind then 1 else 0
  }

  function AllCompletions(facts: seq<Fact>, from: nat, turn: TurnId): nat
    decreases |facts|
  {
    if |facts| <= from then 0
    else
      var f := facts[|facts| - 1];
      AllCompletions(facts[..|facts| - 1], from, turn) +
      if AddsTool(f, turn) then 1 else 0
  }

  function AcceptedSteers(facts: seq<Fact>, from: nat, turn: TurnId): nat
    decreases |facts|
  {
    if |facts| <= from then 0
    else
      var n := |facts| - 1;
      AcceptedSteers(facts[..n], from, turn) +
      if AddsSteer(Run(EMPTY, facts[..n]), facts[n], turn) then 1 else 0
  }

  // ---------------------------------------------------------------------------------------------
  // A turn record is the exact digest of its facts
  // ---------------------------------------------------------------------------------------------

  /** The record's field is what was last shown.  (An error may also place a turn that has no thread yet.) */
  predicate Holds(t: Turn, e: Field, d: Option<Datum>) {
    match e
    case StartField => if t.connection.Some? then d == Some(Number(t.connection.value)) else d.None?
    case ThreadField => d.Some? ==> t.thread.Some? && d == Some(Text(t.thread.value))
    case ImagesField => if t.images.Some? then d == Some(Number(t.images.value)) else d.None?
    case ConfigField => if t.config.Some? then d == Some(Text(t.config.value)) else d.None?
    case ProfileField => if t.profile.Some? then d == Some(Text(t.profile.value)) else d.None?
    case CompletionField => if t.completed.Some? then d == Some(Text(t.completed.value)) else d.None?
    case UsageField => if t.tokenUsage.Some? then d == Some(Text(t.tokenUsage.value)) else d.None?
    case ErrorField => if t.codexError.Some? then d == Some(Text(t.codexError.value)) else d.None?
    case ClockField => if d.Some? then d == Some(Clock(t.startedAt)) else t.startedAt.None?
    case DiffField => if t.latestDiff.Some? then d == Some(Text(t.latestDiff.value)) else d.None?
  }

  /** Every field holds the latest value the facts since `from` gave it. */
  ghost predicate Digest(t: Turn, facts: seq<Fact>, from: nat, turn: TurnId) {
    forall e: Field :: Holds(t, e, Latest(facts, from, turn, e))
  }

  /** Every counter is an exact count over the facts since `from`. */
  ghost predicate Tally(t: Turn, facts: seq<Fact>, from: nat, turn: TurnId) {
    var c := t.toolCounts;
    && c.shell == Completions(facts, from, turn, Shell)
    && c.patch == Completions(facts, from, turn, Patch)
    && c.mcp == Completions(facts, from, turn, Mcp)
    && c.dynamic == Completions(facts, from, turn, Dynamic)
    && c.subagent == Completions(facts, from, turn, Subagent)
    && c.search == Completions(facts, from, turn, Search)
    && c.image == Completions(facts, from, turn, Image)
    && c.total == AllCompletions(facts, from, turn)
    && t.steerCount == AcceptedSteers(facts, from, turn)
  }

  /** The fact writes to this turn. */
  predicate Mine(s: State, f: Fact, turn: TurnId) {
    Touches(s, f) && f.turn == turn
  }

  /** The turn's record after a fact, whether or not it is emitted. */
  function After(s: State, f: Fact, turn: TurnId): Turn {
    if Mine(s, f, turn) then Touched(s, f) else TurnOf(s, turn)
  }

  lemma NothingShown(s: State, f: Fact, turn: TurnId, e: Field)
    requires !Mine(s, f, turn)
    ensures Shown(s, f, turn, e).None?
  {
  }

  predicate JoinedField(e: Field) {
    !e.UsageField? && !e.ErrorField? && !e.ClockField? && !e.DiffField?
  }

  lemma HoldsMine(s: State, f: Fact, turn: TurnId, e: Field, d: Option<Datum>)
    requires Mine(s, f, turn) && Holds(TurnOf(s, turn), e, d) && JoinedField(e)
    ensures Holds(Touched(s, f), e, if Shown(s, f, turn, e).Some? then Shown(s, f, turn, e) else d)
  {
    hide TurnOf, Record;
  }

  lemma HoldsOptional(s: State, f: Fact, turn: TurnId, e: Field, d: Option<Datum>)
    requires Mine(s, f, turn) && Holds(TurnOf(s, turn), e, d) && !JoinedField(e)
    ensures Holds(Touched(s, f), e, if Shown(s, f, turn, e).Some? then Shown(s, f, turn, e) else d)
  {
    hide TurnOf, Record;
  }

  lemma HoldsOne(s: State, f: Fact, turn: TurnId, e: Field, d: Option<Datum>)
    requires Holds(TurnOf(s, turn), e, d)
    ensures Holds(After(s, f, turn), e, if Shown(s, f, turn, e).Some? then Shown(s, f, turn, e) else d)
  {
    hide Holds, Mine, Shown, Touched;
    if Mine(s, f, turn) {
      if JoinedField(e) {
        HoldsMine(s, f, turn, e, d);
      } else {
        HoldsOptional(s, f, turn, e, d);
      }
    } else {
      NothingShown(s, f, turn, e);
    }
  }

  lemma LatestAppend(facts: seq<Fact>, f: Fact, from: nat, turn: TurnId, e: Field)
    requires from <= |facts|
    ensures Latest(facts + [f], from, turn, e) ==
      var shown := Shown(Run(EMPTY, facts), f, turn, e); if shown.Some? then shown else Latest(facts, from, turn, e)
  {
    hide Run, Shown;
    assert (facts + [f])[..|facts|] == facts;
  }

  lemma DigestOne(facts: seq<Fact>, f: Fact, from: nat, turn: TurnId)
    requires from <= |facts| && Digest(TurnOf(Run(EMPTY, facts), turn), facts, from, turn)
    ensures Digest(After(Run(EMPTY, facts), f, turn), facts + [f], from, turn)
  {
    hide Run, Holds, Shown, After, TurnOf, Latest;
    forall e: Field ensures Holds(After(Run(EMPTY, facts), f, turn), e, Latest(facts + [f], from, turn, e)) {
      HoldsOne(Run(EMPTY, facts), f, turn, e, Latest(facts, from, turn, e));
      LatestAppend(facts, f, from, turn, e);
    }
  }

  /** What a fact adds to the counters of a turn. */
  predicate AddsTool(f: Fact, turn: TurnId) {
    f.ItemCompleted? && f.item.Tool? && f.turn == turn
  }

  predicate AddsSteer(s: State, f: Fact, turn: TurnId) {
    MatchedSteer(s, f) && f.turn == turn
  }

  lemma CountersAfter(s: State, f: Fact, turn: TurnId)
    requires turn in s.turns || Mine(s, f, turn)
    ensures var t, u := TurnOf(s, turn), After(s, f, turn);
      && u.toolCounts == (if AddsTool(f, turn) then Record(t.toolCounts, f.item.kind) else t.toolCounts)
      && u.steerCount == t.steerCount + (if AddsSteer(s, f, turn) then 1 else 0)
  {
    hide Record;
  }

  /** While the turn has a record, no completion and no accepted steer escapes it. */
  lemma TallyOne(facts: seq<Fact>, f: Fact, from: nat, turn: TurnId)
    requires from <= |facts| && Tally(TurnOf(Run(EMPTY, facts), turn), facts, from, turn)
    requires turn in Run(EMPTY, facts).turns || Mine(Run(EMPTY, facts), f, turn)
    ensures Tally(After(Run(EMPTY, facts), f, turn), facts + [f], from, turn)
  {
    hide Run, After, TurnOf, Mine, MatchedSteer;
    assert (facts + [f])[..|facts|] == facts;
    CountersAfter(Run(EMPTY, facts), f, turn);
  }

  /** The run emits the turn at this position. */
  predicate EmitsAt(facts: seq<Fact>, k: nat, turn: TurnId)
    requires k < |facts|
  {
    EmitsTurn(Run(EMPTY, facts[..k]), facts[k]) && facts[k].turn == turn
  }

  /** The turn has a record after the first k facts. */
  predicate RecordedAt(facts: seq<Fact>, k: nat, turn: TurnId)
    requires k <= |facts|
  {
    turn in Run(EMPTY, facts[..k]).turns
  }

  /** The turn had no record at `from`; the fact there created one, if there is such a fact, and the turn kept
      its record and was not emitted from then on. */
  ghost predicate Opened(facts: seq<Fact>, from: nat, turn: TurnId) {
    && from <= |facts|
    && !RecordedAt(facts, from, turn)
    && (forall k :: from < k <= |facts| ==> RecordedAt(facts, k, turn))
    && (forall k :: from <= k < |facts| ==> !EmitsAt(facts, k, turn))
  }

  lemma TurnsAfter(s: State, f: Fact, turn: TurnId)
    ensures EmitsTurn(s, f) && f.turn == turn ==> turn !in Next(s, f).turns
    ensures !(EmitsTurn(s, f) && f.turn == turn) ==>
      && (turn in Next(s, f).turns <==> turn in s.turns || Mine(s, f, turn))
      && (turn in Next(s, f).turns ==> Next(s, f).turns[turn] == After(s, f, turn))
  {
    hide Touched, Ready, Triggers, NextRequests, NextThreads, NextStarted, NextReviews, NextSummaries;
    assert Next(s, f).turns == NextTurns(s, f);
  }

  lemma SamePositions(facts: seq<Fact>, k: nat, turn: TurnId)
    requires k < |facts|
    ensures var before := facts[..|facts| - 1];
      && (RecordedAt(before, k, turn) <==> RecordedAt(facts, k, turn))
      && (k < |before| ==> (EmitsAt(before, k, turn) <==> EmitsAt(facts, k, turn)))
  {
    hide Run, EmitsTurn;
    assert facts[..|facts| - 1][..k] == facts[..k];
  }

  lemma OpenedLonger(facts: seq<Fact>, from: nat, turn: TurnId)
    requires facts != [] && Opened(facts[..|facts| - 1], from, turn)
    requires !EmitsAt(facts, |facts| - 1, turn) && RecordedAt(facts, |facts|, turn)
    ensures Opened(facts, from, turn)
  {
    hide EmitsAt, RecordedAt;
    forall k: nat | k < |facts|
      ensures var before := facts[..|facts| - 1];
        && (RecordedAt(before, k, turn) <==> RecordedAt(facts, k, turn))
        && (k < |before| ==> (EmitsAt(before, k, turn) <==> EmitsAt(facts, k, turn)))
    {
      SamePositions(facts, k, turn);
    }
  }

  lemma NewTurnDigest(facts: seq<Fact>, turn: TurnId)
    ensures Digest(NEW_TURN, facts, |facts|, turn) && Tally(NEW_TURN, facts, |facts|, turn)
  {
  }

  /** A turn's record is the exact digest of the facts about the turn since the one that created it, and its
      counters are exact counts over those facts; a turn without a record has the empty digest. */
  lemma {:induction false} RecordIsDigest(facts: seq<Fact>, turn: TurnId) returns (from: nat)
    ensures Opened(facts, from, turn)
    ensures from < |facts| <==> turn in Run(EMPTY, facts).turns
    ensures Digest(TurnOf(Run(EMPTY, facts), turn), facts, from, turn)
    ensures Tally(TurnOf(Run(EMPTY, facts), turn), facts, from, turn)
    decreases |facts|
  {
    if turn in Run(EMPTY, facts).turns {
      hide Next, Digest, Tally, After, Mine, EmitsTurn;
      var n := |facts| - 1;
      var s, f := Run(EMPTY, facts[..n]), facts[n];
      from := RecordIsDigest(facts[..n], turn);
      assert facts == facts[..n] + [f];
      TurnsAfter(s, f, turn);
      DigestOne(facts[..n], f, from, turn);
      TallyOne(facts[..n], f, from, turn);
      assert facts[..|facts|] == facts;
      OpenedLonger(facts, from, turn);
    } else {
      hide Next, Digest, Tally;
      from := |facts|;
      assert facts[..from] == facts;
      NewTurnDigest(facts, turn);
    }
  }

  // ---------------------------------------------------------------------------------------------
  // Counters
  // ---------------------------------------------------------------------------------------------

  function SumOfKinds(c: ToolCounts): nat {
    c.shell + c.patch + c.mcp + c.dynamic + c.subagent + c.search + c.image
  }

  lemma {:induction false} KindsAddUp(facts: seq<Fact>, from: nat, turn: TurnId)
    ensures AllCompletions(facts, from, turn) ==
      Completions(facts, from, turn, Shell) + Completions(facts, from, turn, Patch) +
      Completions(facts, from, turn, Mcp) +
      Completions(facts, from, turn, Dynamic) + Completions(facts, from, turn, Subagent) +
      Completions(facts, from, turn, Search) + Completions(facts, from, turn, Image)
    decreases |facts|
  {
    if |facts| > from {
      KindsAddUp(facts[..|facts| - 1], from, turn);
    }
  }

  /** In every reachable state a turn's counters count exactly the tracked completions, by kind and in all,
      and the accepted steers since its record was created, and the total is the sum of the kinds; what came
      while the turn had no record is not counted. */
  lemma CountersAreExact(facts: seq<Fact>, turn: TurnId) returns (from: nat)
    requires turn in Run(EMPTY, facts).turns
    ensures from < |facts| && !RecordedAt(facts, from, turn)
    ensures forall k :: from < k <= |facts| ==> RecordedAt(facts, k, turn)
    ensures Tally(Run(EMPTY, facts).turns[turn], facts, from, turn)
    ensures var c := Run(EMPTY, facts).turns[turn].toolCounts; c.total == SumOfKinds(c)
  {
    hide Run, Digest;
    from := RecordIsDigest(facts, turn);
    assert facts[..|facts|] == facts;
    KindsAddUp(facts, from, turn);
  }

  // ---------------------------------------------------------------------------------------------
  // Turn events
  // ---------------------------------------------------------------------------------------------

  /** Turn events come from the emission of a turn and from nothing else. */
  lemma TurnEventsOnly(s: State, f: Fact)
    ensures EmitsTurn(s, f) ==> Emitted(s, f) == TurnEvents(s, f.turn, Touched(s, f))
    ensures forall i :: 0 <= i < |Emitted(s, f)| && Emitted(s, f)[i].TurnEvent? ==> EmitsTurn(s, f) && i == 0
  {
    hide ContextOf, Concludes, Consumes, ThreadKnown, Touched, Ready, CompletesTool, MatchedStart, MatchedSteer;
    if f.Stateless? {
      NamedAreOther(f.events);
    }
  }

  function PayloadAt(facts: seq<Fact>, k: nat, turn: TurnId): TurnPayload
    requires k < |facts| && EmitsAt(facts, k, turn)
  {
    PayloadOf(Run(EMPTY, facts[..k]), turn, Touched(Run(EMPTY, facts[..k]), facts[k]))
  }

  /** Everything a turn event says was shown by the facts since `from`, and nothing newer was. */
  ghost predicate Backed(p: TurnPayload, facts: seq<Fact>, from: nat, turn: TurnId) {
    && p.turnId == turn
    && Latest(facts, from, turn, StartField).Some?
    && Latest(facts, from, turn, ThreadField) == Some(Text(p.thread))
    && Latest(facts, from, turn, ImagesField) == Some(Number(p.images))
    && Latest(facts, from, turn, ConfigField) == Some(Text(p.config))
    && Latest(facts, from, turn, ProfileField) == Some(Text(p.profile))
    && Latest(facts, from, turn, CompletionField) == Some(Text(p.completed))
    && Latest(facts, from, turn, UsageField) == (if p.tokenUsage.Some? then Some(Text(p.tokenUsage.value)) else None)
    && Latest(facts, from, turn, ErrorField) == (if p.codexError.Some? then Some(Text(p.codexError.value)) else None)
    && Holds(NEW_TURN.(startedAt := p.startedAt), ClockField, Latest(facts, from, turn, ClockField))
    && Tally(NEW_TURN.(toolCounts := p.toolCounts, steerCount := p.steerCount), facts, from, turn)
  }

  lemma {:induction false} LatestPosition(facts: seq<Fact>, from: nat, turn: TurnId, e: Field) returns (k: nat)
    requires Latest(facts, from, turn, e).Some?
    ensures from <= k < |facts| && ShownAt(facts, k, turn, e) == Latest(facts, from, turn, e)
    ensures forall m :: k < m < |facts| ==> ShownAt(facts, m, turn, e).None?
    decreases |facts|
  {
    hide Run, Shown;
    var n := |facts| - 1;
    if ShownAt(facts, n, turn, e).Some? {
      k := n;
    } else {
      k := LatestPosition(facts[..n], from, turn, e);
      assert facts[..n][..k] == facts[..k];
      forall m | k < m < |facts| ensures ShownAt(facts, m, turn, e).None? {
        if m < n {
          assert facts[..n][..m] == facts[..m];
          assert ShownAt(facts[..n], m, turn, e).None?;
        }
      }
    }
  }

  /** A placed turn's thread is the one last shown, because the start response names one too. */
  lemma StartPlaces(facts: seq<Fact>, from: nat, turn: TurnId)
    requires Latest(facts, from, turn, StartField).Some?
    ensures Latest(facts, from, turn, ThreadField).Some?
    decreases |facts|
  {
    hide Run;
    var n := |facts| - 1;
    if ShownAt(facts, n, turn, StartField).None? {
      StartPlaces(facts[..n], from, turn);
    }
  }

  lemma DigestBacks(t: Turn, p: TurnPayload, facts: seq<Fact>, from: nat, turn: TurnId)
    requires Digest(t, facts, from, turn) && Tally(t, facts, from, turn) && Populated(t)
    requires && p.turnId == turn && p.thread == t.thread.value && p.images == t.images.value
             && p.config == t.config.value && p.profile == t.profile.value && p.completed == t.completed.value
             && p.startedAt == t.startedAt && p.tokenUsage == t.tokenUsage && p.codexError == t.codexError
             && p.steerCount == t.steerCount && p.toolCounts == t.toolCounts
    ensures Backed(p, facts, from, turn)
  {
    hide Latest, Completions, AllCompletions, AcceptedSteers;
    forall e: Field ensures Holds(t, e, Latest(facts, from, turn, e)) {}
    assert Holds(t, StartField, Latest(facts, from, turn, StartField));
    StartPlaces(facts, from, turn);
    assert Holds(t, ThreadField, Latest(facts, from, turn, ThreadField));
    assert Holds(t, ImagesField, Latest(facts, from, turn, ImagesField));
    assert Holds(t, ConfigField, Latest(facts, from, turn, ConfigField));
    assert Holds(t, ProfileField, Latest(facts, from, turn, ProfileField));
    assert Holds(t, CompletionField, Latest(facts, from, turn, CompletionField));
    assert Holds(t, UsageField, Latest(facts, from, turn, UsageField));
    assert Holds(t, ErrorField, Latest(facts, from, turn, ErrorField));
    assert Holds(t, ClockField, Latest(facts, from, turn, ClockField));
  }

  /** The event names the connection of the last start response and the metadata of its thread. */
  ghost predicate Located(s: State, p: TurnPayload, start: Option<Datum>) {
    && start.Some? && start.value.Number? && start.value.n in s.connections
    && p.connection == s.connections[start.value.n]
    && p.thread in s.threads && s.threads[p.thread].metadata == Some(p.metadata)
  }

  lemma DigestLocates(s: State, t: Turn, turn: TurnId, facts: seq<Fact>, from: nat)
    requires Digest(t, facts, from, turn) && Ready(s, t)
    ensures Located(s, PayloadOf(s, turn, t), Latest(facts, from, turn, StartField))
  {
    hide Latest;
    assert Holds(t, StartField, Latest(facts, from, turn, StartField));
  }

  /** What follows the turn event: one report of the lines the last diff added and deleted, if there are any. */
  ghost predicate SaysLines(rest: seq<Event>, turn: TurnId, thread: ThreadId, diff: Option<Datum>,
                            env: AcceptedLines.Env)
  {
    if diff.None? then rest == []
    else
      && diff.value.Text?
      && var lines := AcceptedLines.Summarize(env, diff.value.s);
         if lines.added == 0 && lines.deleted == 0 then rest == []
         else rest == [AcceptedLineFingerprints(turn, thread, lines.added, lines.deleted)]
  }

  lemma DigestSaysLines(t: Turn, turn: TurnId, facts: seq<Fact>, from: nat, env: AcceptedLines.Env)
    requires Digest(t, facts, from, turn) && t.thread.Some?
    ensures SaysLines(AcceptedLineEvents(turn, t), turn, t.thread.value, Latest(facts, from, turn, DiffField), env)
  {
    hide Latest, AcceptedLines.Summarize;
    assert Holds(t, DiffField, Latest(facts, from, turn, DiffField));
    if t.latestDiff.Some? {
      AcceptedLines.CountsOfSummary(env, t.latestDiff.value);
    }
  }

  /** Every turn event of every run is backed by the facts about its turn since the one that created the
      record, hence by facts after the turn's last event. */
  lemma TurnEventBacked(facts: seq<Fact>, j: nat, turn: TurnId) returns (from: nat)
    requires j < |facts| && EmitsAt(facts, j, turn)
    ensures from <= j && Opened(facts[..j], from, turn)
    ensures Backed(PayloadAt(facts, j, turn), facts[..j + 1], from, turn)
    ensures Located(Run(EMPTY, facts[..j]), PayloadAt(facts, j, turn), Latest(facts[..j + 1], from, turn, StartField))
    ensures var out := Emitted(Run(EMPTY, facts[..j]), facts[j]);
      |out| > 0 && out[0] == TurnEvent(PayloadAt(facts, j, turn))
  {
    hide Digest, Tally, TurnOf, Run, Opened, Touched, Backed, Emitted, Located, Latest;
    from := RecordIsDigest(facts[..j], turn);
    FromBound(facts[..j], from, turn);
    var s, f := Run(EMPTY, facts[..j]), facts[j];
    DigestOne(facts[..j], f, from, turn);
    TallyOne(facts[..j], f, from, turn);
    assert facts[..j + 1] == facts[..j] + [f];
    DigestBacks(Touched(s, f), PayloadAt(facts, j, turn), facts[..j + 1], from, turn);
    DigestLocates(s, Touched(s, f), turn, facts[..j + 1], from);
    TurnEventsOnly(s, f);
  }

  /** The fact that created the record is the only one of its kind. */
  lemma OpenedOnce(facts: seq<Fact>, a: nat, b: nat, turn: TurnId)
    requires Opened(facts, a, turn) && Opened(facts, b, turn)
    ensures a == b
  {
    hide RecordedAt, EmitsAt;
  }

  /** What else the emission of a turn puts out: one event with the turn, its thread and the numbers of lines its last
      diff since the record was created added and deleted; none if there was no such diff or both numbers are zero. */
  lemma LineEventBacked(facts: seq<Fact>, j: nat, turn: TurnId, from: nat, env: AcceptedLines.Env)
    requires j < |facts| && EmitsAt(facts, j, turn)
    requires from <= j && Opened(facts[..j], from, turn)
    ensures var out := Emitted(Run(EMPTY, facts[..j]), facts[j]);
      && |out| > 0
      && SaysLines(out[1..], turn, PayloadAt(facts, j, turn).thread, Latest(facts[..j + 1], from, turn, DiffField), env)
  {
    hide Digest, Tally, TurnOf, Run, Opened, Touched, Emitted, Latest, SaysLines, AcceptedLineEvents;
    var created := RecordIsDigest(facts[..j], turn);
    OpenedOnce(facts[..j], from, created, turn);
    var s, f := Run(EMPTY, facts[..j]), facts[j];
    DigestOne(facts[..j], f, from, turn);
    assert facts[..j + 1] == facts[..j] + [f];
    TurnEventsOnly(s, f);
    var t := Touched(s, f);
    assert Emitted(s, f)[1..] == AcceptedLineEvents(turn, t);
    DigestSaysLines(t, turn, facts[..j + 1], from, env);
  }

  lemma FromBound(facts: seq<Fact>, from: nat, turn: TurnId)
    requires Opened(facts, from, turn)
    ensures from <= |facts|
  {
  }

  predicate Required(e: Field) {
    e == StartField || e == ConfigField || e == ProfileField || e == CompletionField
  }

  /** Between two turn events for the same turn id there is a new matched turn/start response, a new
      resolved config, a new profile and a new completion for that id. */
  lemma FreshEvidence(facts: seq<Fact>, i: nat, j: nat, turn: TurnId, e: Field) returns (k: nat)
    requires i < j < |facts| && EmitsAt(facts, i, turn) && EmitsAt(facts, j, turn)
    requires Required(e)
    ensures i < k <= j && ShownAt(facts, k, turn, e).Some?
  {
    hide Run, EmitsTurn, Shown, Tally, Emitted;
    var from := TurnEventBacked(facts, j, turn);
    assert facts[..j][..i] == facts[..i];
    assert from > i by {
      assert from <= i ==> EmitsAt(facts[..j], i, turn);
    }
    k := LatestPosition(facts[..j + 1], from, turn, e);
    assert facts[..j + 1][..k] == facts[..k];
  }
}

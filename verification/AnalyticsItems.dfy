/** Tool items: when a completion is reported, with which times, and when it uses up the item's reviews; all told
    from the facts of the run. */
module AnalyticsItems {
  import opened Options
  import opened AnalyticsModel
  import AnalyticsThreads

  /** The fact is about this tracked item. */
  predicate About(f: Fact, key: ToolKey) {
    (f.ItemStarted? || f.ItemCompleted?) && f.item.Tool?
    && f.thread == key.thread && f.turn == key.turn && f.item.id == key.item
  }

  /** When the item last started, unless it completed since in a turn that had a record. */
  function LastStart(facts: seq<Fact>, key: ToolKey): Option<nat> {
    if facts == [] then None
    else
      var n := |facts| - 1;
      var f := facts[n];
      if f.ItemStarted? && About(f, key) && f.at >= 0 then Some(f.at)
      else if f.ItemCompleted? && About(f, key) && f.turn in Run(EMPTY, facts[..n]).turns then None
      else LastStart(facts[..n], key)
  }

  lemma StartedAfter(s: State, f: Fact, key: ToolKey)
    ensures var before := if key in s.started then Some(s.started[key]) else None;
      (if key in Next(s, f).started then Some(Next(s, f).started[key]) else None) ==
      if f.ItemStarted? && About(f, key) && f.at >= 0 then Some(f.at)
      else if f.ItemCompleted? && About(f, key) && f.turn in s.turns then None
      else before
  {
    hide NextRequests, NextTurns, NextThreads, NextReviews, NextSummaries;
    assert Next(s, f).started == NextStarted(s, f);
  }

  lemma {:induction false} StartedTracked(facts: seq<Fact>, key: ToolKey)
    ensures LastStart(facts, key) ==
      var s := Run(EMPTY, facts); if key in s.started then Some(s.started[key]) else None
  {
    if facts != [] {
      hide Next, About;
      var n := |facts| - 1;
      StartedTracked(facts[..n], key);
      StartedAfter(Run(EMPTY, facts[..n]), facts[n], key);
    }
  }

  /** The fact completes this item, which started, in a turn that has a record and a thread that has a connection,
      at a valid time. */
  predicate UsesUp(facts: seq<Fact>, f: Fact, key: ToolKey) {
    var s := Run(EMPTY, facts);
    && f.ItemCompleted? && About(f, key) && f.at >= 0
    && f.turn in s.turns && LastStart(facts, key).Some?
    && f.thread in s.threads && s.threads[f.thread].connection.Some?
  }

  lemma ConsumesExactly(facts: seq<Fact>, f: Fact, key: ToolKey)
    ensures Consumes(Run(EMPTY, facts), f) == Some(key) <==> UsesUp(facts, f, key)
  {
    StartedTracked(facts, key);
    hide Run;
    if f.ItemCompleted? {
      AnalyticsThreads.OnlyMissingConnections(facts, f.thread);
    }
    hide ContextOf;
  }

  /** Searches and images are reported always, other items once they are over. */
  predicate Reportable(item: ThreadItem) {
    item.Tool? && (item.kind == Search || item.kind == Image
                   || item.status == Completed || item.status == Failed || item.status == Declined)
  }

  /** A completion is reported exactly if it uses up its item and the item is reportable, with the item's last start,
      its own time and the item's reviews; nothing else reports a tool item. */
  lemma ToolEventsExactly(facts: seq<Fact>, f: Fact)
    ensures f.ItemCompleted? && f.item.Tool? ==>
      var key := ToolKey(f.thread, f.turn, f.item.id);
      Emitted(Run(EMPTY, facts), f) ==
        if UsesUp(facts, f, key) && Reportable(f.item) then
          [ToolItemEvent(key, f.item.kind, LastStart(facts, key).value, f.at, SummaryOf(Run(EMPTY, facts), key))]
        else []
    ensures !(f.ItemCompleted? && f.item.Tool?) ==>
      forall i :: 0 <= i < |Emitted(Run(EMPTY, facts), f)| ==> !Emitted(Run(EMPTY, facts), f)[i].ToolItemEvent?
  {
    var s := Run(EMPTY, facts);
    if f.ItemCompleted? && f.item.Tool? {
      var key := ToolKey(f.thread, f.turn, f.item.id);
      ConsumesExactly(facts, f, key);
      StartedTracked(facts, key);
      hide Run, UsesUp, SummaryOf, ContextOf, LastStart;
      CompletionEmits(s, f);
    } else {
      hide Run;
      OthersEmitNoTools(s, f);
    }
  }

  lemma CompletionEmits(s: State, f: Fact)
    requires f.ItemCompleted? && f.item.Tool?
    ensures Consumes(s, f).Some? ==> Consumes(s, f) == Some(ToolKey(f.thread, f.turn, f.item.id))
    ensures Consumes(s, f).Some? ==> ToolKey(f.thread, f.turn, f.item.id) in s.started
    ensures var key := ToolKey(f.thread, f.turn, f.item.id);
      Emitted(s, f) ==
        if Consumes(s, f).Some? && Reportable(f.item) then
          [ToolItemEvent(key, f.item.kind, s.started[key], f.at, SummaryOf(s, key))]
        else []
  {
  }

  lemma OthersEmitNoTools(s: State, f: Fact)
    requires !(f.ItemCompleted? && f.item.Tool?)
    ensures forall i :: 0 <= i < |Emitted(s, f)| ==> !Emitted(s, f)[i].ToolItemEvent?
  {
    hide ContextOf, Ready, Touched, ThreadKnown, Concludes;
    if f.Stateless? {
      NamedAreOther(f.events);
    }
  }
}

/** Threads and their context: which warnings can happen, and what a thread never loses. */
module AnalyticsThreads {
  import opened Options
  import opened AnalyticsModel

  /** Every known thread has metadata, and its connection, if it has one, is registered. */
  ghost predicate Wired(s: State) {
    forall t :: t in s.threads ==>
      s.threads[t].metadata.Some? && (s.threads[t].connection.Some? ==> s.threads[t].connection.value in s.connections)
  }

  lemma NextWired(s: State, f: Fact)
    requires Wired(s)
    ensures Wired(Next(s, f))
  {
  }

  lemma {:induction false} RunWired(facts: seq<Fact>)
    ensures Wired(Run(EMPTY, facts))
  {
    if facts != [] {
      var n := |facts| - 1;
      RunWired(facts[..n]);
      NextWired(Run(EMPTY, facts[..n]), facts[n]);
    }
  }

  /** In every run two of the three missing-context warnings are dead: a lookup fails only for a thread
      that is unknown or was never given a connection. */
  lemma OnlyMissingConnections(facts: seq<Fact>, thread: ThreadId)
    ensures var s := Run(EMPTY, facts);
      && (ContextOf(s, thread).NoContext? <==> thread !in s.threads || s.threads[thread].connection.None?)
      && (ContextOf(s, thread).NoContext? ==> ContextOf(s, thread).missing == ThreadConnectionMissing)
  {
    RunWired(facts);
  }

  lemma NextKeepsContext(s: State, f: Fact, thread: ThreadId)
    requires Wired(s) && ContextOf(s, thread).Context?
    ensures ContextOf(Next(s, f), thread).Context?
  {
    NextWired(s, f);
    var t := Next(s, f);
    assert thread in t.threads && t.threads[thread].connection.Some?;
  }

  /** A thread that has its full context keeps it for the rest of the run. */
  lemma {:induction false} ContextIsForever(facts: seq<Fact>, more: seq<Fact>, thread: ThreadId)
    requires ContextOf(Run(EMPTY, facts), thread).Context?
    ensures ContextOf(Run(EMPTY, facts + more), thread).Context?
    decreases |more|
  {
    hide Next, ContextOf;
    if more == [] {
      assert facts + more == facts;
    } else {
      var n := |more| - 1;
      ContextIsForever(facts, more[..n], thread);
      RunWired(facts + more[..n]);
      assert facts + more == (facts + more[..n]) + [more[n]];
      RunAppend(EMPTY, facts + more[..n], more[n]);
      NextKeepsContext(Run(EMPTY, facts + more[..n]), more[n], thread);
    }
  }

  // ---------------------------------------------------------------------------------------------
  // Chains of subagents
  // ---------------------------------------------------------------------------------------------

  /** A chain of subagent starts in a run, at the given positions and with any facts in between: each thread is
      started by the one before it, the first by the root. */
  ghost predicate Chain(facts: seq<Fact>, from: nat, root: ThreadId, at: seq<nat>) {
    && from <= |facts|
    && (forall i :: 0 <= i < |at| ==> from <= at[i] < |facts| && facts[at[i]].SubAgentStarted?)
    && (forall i :: 0 < i < |at| ==> at[i - 1] < at[i] && facts[at[i]].parent == Some(facts[at[i - 1]].thread))
    && (at != [] ==> facts[at[0]].parent == Some(root))
  }

  /** The thread at the end of a chain. */
  function Tip(facts: seq<Fact>, root: ThreadId, at: seq<nat>): ThreadId
    requires at != [] ==> at[|at| - 1] < |facts| && facts[at[|at| - 1]].SubAgentStarted?
  {
    if at == [] then root else facts[at[|at| - 1]].thread
  }

  /** The chain without its last start, in the run up to that start. */
  lemma ChainBefore(facts: seq<Fact>, from: nat, root: ThreadId, at: seq<nat>)
    requires at != [] && Chain(facts, from, root, at)
    ensures var n, p := |at| - 1, at[|at| - 1];
      && Chain(facts[..p], from, root, at[..n])
      && facts[p].parent == Some(Tip(facts[..p], root, at[..n]))
  {
    forall i, j | 0 <= i < j < |at| ensures at[i] < at[j] {
      Increasing(facts, from, root, at, i, j);
    }
  }

  lemma {:induction false} Increasing(facts: seq<Fact>, from: nat, root: ThreadId, at: seq<nat>, i: nat, j: nat)
    requires Chain(facts, from, root, at) && i < j < |at|
    ensures at[i] < at[j]
    decreases j
  {
    if i < j - 1 {
      Increasing(facts, from, root, at, i, j - 1);
    }
  }

  /** A subagent of a thread with context has context; it has its parent's connection unless it had its own. */
  lemma InheritOne(s: State, parent: ThreadId, f: Fact)
    requires Wired(s) && ContextOf(s, parent).Context?
    requires f.SubAgentStarted? && f.parent == Some(parent)
    ensures ContextOf(Next(s, f), f.thread).Context?
    ensures f.thread !in s.threads || s.threads[f.thread].connection.None? ==>
      Next(s, f).threads[f.thread].connection == s.threads[parent].connection
  {
    NextWired(s, f);
  }

  /** Context is inherited along a chain of subagents, however long it is and whatever happens in between. */
  lemma {:induction false} ContextInherited(facts: seq<Fact>, from: nat, root: ThreadId, at: seq<nat>)
    requires Chain(facts, from, root, at) && ContextOf(Run(EMPTY, facts[..from]), root).Context?
    ensures ContextOf(Run(EMPTY, facts), Tip(facts, root, at)).Context?
    decreases |at|
  {
    hide Next, ContextOf, Run, Wired;
    if at == [] {
      assert facts[..from] + facts[from..] == facts;
      ContextIsForever(facts[..from], facts[from..], root);
    } else {
      var n, p := |at| - 1, at[|at| - 1];
      var before, parent := facts[..p], Tip(facts[..p], root, at[..n]);
      ChainBefore(facts, from, root, at);
      assert before[..from] == facts[..from];
      ContextInherited(before, from, root, at[..n]);
      RunWired(before);
      InheritOne(Run(EMPTY, before), parent, facts[p]);
      RunAppend(EMPTY, before, facts[p]);
      assert before + [facts[p]] + facts[p + 1..] == facts;
      ContextIsForever(before + [facts[p]], facts[p + 1..], facts[p].thread);
    }
  }

  /** The connection a thread has, if any. */
  function ConnectionOf(s: State, thread: ThreadId): Option<ConnectionId> {
    if thread in s.threads then s.threads[thread].connection else None
  }

  /** Only opening it again gives a connected thread another connection. */
  lemma {:induction false} ConnectionStays(facts: seq<Fact>, more: seq<Fact>, thread: ThreadId)
    requires ConnectionOf(Run(EMPTY, facts), thread).Some?
    requires forall k :: 0 <= k < |more| ==> !(more[k].ThreadOpened? && more[k].thread == thread)
    ensures ConnectionOf(Run(EMPTY, facts + more), thread) == ConnectionOf(Run(EMPTY, facts), thread)
    decreases |more|
  {
    hide Next, ConnectionOf;
    if more == [] {
      assert facts + more == facts;
    } else {
      var n := |more| - 1;
      ConnectionStays(facts, more[..n], thread);
      assert facts + more == (facts + more[..n]) + [more[n]];
      RunAppend(EMPTY, facts + more[..n], more[n]);
      NextKeepsConnection(Run(EMPTY, facts + more[..n]), more[n], thread);
    }
  }

  lemma NextKeepsConnection(s: State, f: Fact, thread: ThreadId)
    requires ConnectionOf(s, thread).Some? && !(f.ThreadOpened? && f.thread == thread)
    ensures ConnectionOf(Next(s, f), thread) == ConnectionOf(s, thread)
  {
    hide NextRequests, NextTurns, NextStarted, NextReviews, NextSummaries;
    assert Next(s, f).threads == NextThreads(s, f);
  }

  /** No thread of the chain had a connection of its own when it was started, and none is opened again. */
  ghost predicate Undisturbed(facts: seq<Fact>, from: nat, root: ThreadId, at: seq<nat>)
    requires Chain(facts, from, root, at)
  {
    && (forall i :: 0 <= i < |at| ==> ConnectionOf(Run(EMPTY, facts[..at[i]]), facts[at[i]].thread).None?)
    && (forall k :: from <= k < |facts| && facts[k].ThreadOpened? ==> facts[k].thread != root)
    && (forall i, k :: 0 <= i < |at| && from <= k < |facts| && facts[k].ThreadOpened? ==>
         facts[k].thread != facts[at[i]].thread)
  }

  /** The root's connection is inherited along such a chain, whatever other facts stand between the starts. */
  lemma {:induction false} ConnectionInherited(facts: seq<Fact>, from: nat, root: ThreadId, at: seq<nat>)
    requires Chain(facts, from, root, at) && ContextOf(Run(EMPTY, facts[..from]), root).Context?
    requires Undisturbed(facts, from, root, at)
    ensures ContextOf(Run(EMPTY, facts), Tip(facts, root, at)).Context?
    ensures ConnectionOf(Run(EMPTY, facts), Tip(facts, root, at)) == ConnectionOf(Run(EMPTY, facts[..from]), root)
    decreases |at|
  {
    hide Next, Run, Wired;
    ContextInherited(facts, from, root, at);
    if at == [] {
      assert facts[..from] + facts[from..] == facts;
      ConnectionStays(facts[..from], facts[from..], root);
    } else {
      var n, p := |at| - 1, at[|at| - 1];
      var before := facts[..p];
      ChainBefore(facts, from, root, at);
      assert before[..from] == facts[..from];
      UndisturbedBefore(facts, from, root, at);
      ConnectionInherited(before, from, root, at[..n]);
      RunWired(before);
      InheritOne(Run(EMPTY, before), Tip(before, root, at[..n]), facts[p]);
      RunAppend(EMPTY, before, facts[p]);
      assert before + [facts[p]] + facts[p + 1..] == facts;
      ConnectionStays(before + [facts[p]], facts[p + 1..], facts[p].thread);
    }
  }

  lemma UndisturbedBefore(facts: seq<Fact>, from: nat, root: ThreadId, at: seq<nat>)
    requires at != [] && Chain(facts, from, root, at) && Undisturbed(facts, from, root, at)
    requires Chain(facts[..at[|at| - 1]], from, root, at[..|at| - 1])
    ensures Undisturbed(facts[..at[|at| - 1]], from, root, at[..|at| - 1])
  {
    hide Run, ConnectionOf;
    var p := at[|at| - 1];
    forall i | 0 <= i < |at| - 1
      ensures ConnectionOf(Run(EMPTY, facts[..p][..at[i]]), facts[..p][at[i]].thread).None?
    {
      assert facts[..p][..at[i]] == facts[..at[i]];
    }
  }

  // ---------------------------------------------------------------------------------------------
  // What is known of a thread, and what is reported of it
  // ---------------------------------------------------------------------------------------------

  /** The metadata of a thread: that of its last opening on a registered connection, or of the subagent start that
      made it known. */
  function MetadataOf(facts: seq<Fact>, thread: ThreadId): Option<ThreadMetadata> {
    if facts == [] then None
    else
      var n := |facts| - 1;
      var f, earlier := facts[n], MetadataOf(facts[..n], thread);
      if f.ThreadOpened? && f.thread == thread && f.connection in Run(EMPTY, facts[..n]).connections then
        Some(f.metadata)
      else if f.SubAgentStarted? && f.thread == thread && earlier.None? then
        Some(ThreadMetadata(f.sessionId, f.source, New, f.parent))
      else earlier
  }

  lemma MetadataAfter(s: State, f: Fact, thread: ThreadId)
    requires Wired(s)
    ensures var before := if thread in s.threads then s.threads[thread].metadata else None;
      (if thread in Next(s, f).threads then Next(s, f).threads[thread].metadata else None) ==
      if f.ThreadOpened? && f.thread == thread && f.connection in s.connections then Some(f.metadata)
      else if f.SubAgentStarted? && f.thread == thread && before.None? then
        Some(ThreadMetadata(f.sessionId, f.source, New, f.parent))
      else before
  {
    hide NextRequests, NextTurns, NextStarted, NextReviews, NextSummaries;
    assert Next(s, f).threads == NextThreads(s, f);
  }

  /** The reducer knows exactly the threads the facts tell of, with that metadata. */
  lemma {:induction false} MetadataTracked(facts: seq<Fact>, thread: ThreadId)
    ensures var s := Run(EMPTY, facts);
      && (thread in s.threads <==> MetadataOf(facts, thread).Some?)
      && (thread in s.threads ==> s.threads[thread].metadata == MetadataOf(facts, thread))
  {
    RunWired(facts);
    if facts != [] {
      var n := |facts| - 1;
      MetadataTracked(facts[..n], thread);
      RunWired(facts[..n]);
      MetadataAfter(Run(EMPTY, facts[..n]), facts[n], thread);
      hide Next;
    }
  }

  /** A thread with a connection. */
  predicate Connected(s: State, thread: ThreadId) {
    thread in s.threads && s.threads[thread].connection.Some?
  }

  /** Openings are reported exactly on registered connections, subagent starts always, compactions and guardian
      reviews exactly for connected threads; each with what its fact says. */
  lemma ThreadReports(facts: seq<Fact>, f: Fact)
    ensures var s := Run(EMPTY, facts); var out := Emitted(s, f);
      && (f.ThreadOpened? ==>
            out == if f.connection in s.connections then [ThreadInitialized(f.thread, f.metadata)] else [])
      && (f.SubAgentStarted? ==>
            out == [ThreadInitialized(f.thread, ThreadMetadata(f.sessionId, f.source, New, f.parent))])
      && (f.Compaction? ==> out == if Connected(s, f.thread) then [CompactionEvent(f.thread, f.turn)] else [])
      && (f.GuardianReview? ==> out == if Connected(s, f.thread) then [GuardianEvent(f.thread, f.turn)] else [])
  {
    if f.Compaction? || f.GuardianReview? {
      OnlyMissingConnections(facts, f.thread);
    }
    hide Run, ContextOf;
  }
}

/** The analytics task from end to end: facts go through the reducer one by one, and the events of each fact are
    sent in batches. */
module AnalyticsQueue {
  import opened AnalyticsModel
  import AnalyticsReducer
  import Batching

  /** Everything a run emits, in order. */
  function Output(facts: seq<Fact>): seq<Event> {
    if facts == [] then []
    else Output(facts[..|facts| - 1]) + Emitted(Run(EMPTY, facts[..|facts| - 1]), facts[|facts| - 1])
  }

  lemma {:induction false} FlattenConcat(a: seq<seq<Event>>, b: seq<seq<Event>>)
    ensures Batching.Flatten(a + b) == Batching.Flatten(a) + Batching.Flatten(b)
    decreases |b|
  {
    if b == [] {
      assert a + b == a;
    } else {
      var n := |b| - 1;
      assert a + b == (a + b[..n]) + [b[n]];
      Batching.FlattenAppend(a + b[..n], b[n]);
      FlattenConcat(a, b[..n]);
    }
  }

  lemma SendsMore(sent: seq<seq<Event>>, before: seq<Event>, batches: seq<seq<Event>>, events: seq<Event>)
    requires Batching.Sends(sent, before) && Batching.Sends(batches, events)
    ensures Batching.Sends(sent + batches, before + events)
  {
    hide Batching.Allowed;
    FlattenConcat(sent, batches);
  }

  lemma OneMoreFact(facts: seq<Fact>, i: nat)
    requires i < |facts|
    ensures Run(EMPTY, facts[..i + 1]) == Next(Run(EMPTY, facts[..i]), facts[i])
    ensures Output(facts[..i + 1]) == Output(facts[..i]) + Emitted(Run(EMPTY, facts[..i]), facts[i])
  {
    hide Next, Emitted;
    assert facts[..i + 1][..i] == facts[..i];
  }

  /** The requests carry every event the run emits, once and in order; none is empty, and accepted-line
      events travel alone. */
  method Process(facts: seq<Fact>) returns (reducer: AnalyticsReducer.Reducer, sent: seq<seq<Event>>)
    ensures reducer.View() == Run(EMPTY, facts)
    ensures Batching.Sends(sent, Output(facts)) && forall i :: 0 <= i < |sent| ==> sent[i] != []
  {
    hide Next, Emitted, Batching.Batches;
    reducer := new AnalyticsReducer.Reducer();
    sent := [];
    var i := 0;
    assert facts[..0] == [];
    assert Batching.Sends(sent, Output(facts[..0]));
    hide Batching.Sends;
    while i < |facts|
      invariant 0 <= i <= |facts| && fresh(reducer) && reducer.View() == Run(EMPTY, facts[..i])
      invariant Batching.Sends(sent, Output(facts[..i])) && forall k :: 0 <= k < |sent| ==> sent[k] != []
    {
      OneMoreFact(facts, i);
      hide Run, Output;
      var events := reducer.Ingest(facts[i]);
      if events != [] {
        var batches := Batching.TrackEventRequestBatches(events);
        SendsMore(sent, Output(facts[..i]), batches, events);
        sent := sent + batches;
      } else {
        assert Output(facts[..i]) + events == Output(facts[..i]);
      }
      i := i + 1;
    }
    assert facts[..i] == facts;
  }
}

/** The requests in which analytics events are sent: as few as possible, with some events always alone. */
module Batching {
  import opened AnalyticsModel

  predicate Isolated(e: Event) {
    e.AcceptedLineFingerprints?
  }

  function Flatten(batches: seq<seq<Event>>): seq<Event> {
    if batches == [] then [] else Flatten(batches[..|batches| - 1]) + batches[|batches| - 1]
  }

  /** A batch that keeps accepted-line events alone. */
  ghost predicate Allowed(batch: seq<Event>) {
    |batch| <= 1 || forall i :: 0 <= i < |batch| ==> !batch[i].AcceptedLineFingerprints?
  }

  /** A way to send the events: in order, all of them, isolated ones alone. */
  ghost predicate Sends(batches: seq<seq<Event>>, events: seq<Event>) {
    Flatten(batches) == events && forall i :: 0 <= i < |batches| ==> Allowed(batches[i])
  }

  /** The next event joins the batch before it. */
  predicate Joins(events: seq<Event>, e: Event) {
    events != [] && !Isolated(e) && !Isolated(events[|events| - 1])
  }

  /** The batches, event by event. */
  function Batches(events: seq<Event>): (batches: seq<seq<Event>>)
    ensures events != [] ==> batches != []
  {
    if events == [] then []
    else
      var n := |events| - 1;
      var before := Batches(events[..n]);
      if Joins(events[..n], events[n]) then
        before[..|before| - 1] + [before[|before| - 1] + [events[n]]]
      else before + [[events[n]]]
  }

  lemma BatchesAppend(events: seq<Event>, e: Event)
    ensures var before := Batches(events);
      Batches(events + [e]) ==
        if Joins(events, e) then before[..|before| - 1] + [before[|before| - 1] + [e]] else before + [[e]]
  {
    assert (events + [e])[..|events|] == events;
  }

  lemma FlattenAppend(batches: seq<seq<Event>>, batch: seq<Event>)
    ensures Flatten(batches + [batch]) == Flatten(batches) + batch
  {
    assert (batches + [batch])[..|batches|] == batches;
  }

  /** No batch is empty, isolated events are alone, and the last batch ends with the last event. */
  ghost predicate WellFormed(batches: seq<seq<Event>>, events: seq<Event>) {
    && Sends(batches, events)
    && (forall i :: 0 <= i < |batches| ==> batches[i] != [])
    && (events != [] ==> batches != [] && var last := batches[|batches| - 1]; last[|last| - 1] == events[|events| - 1])
  }

  lemma {:induction false} BatchesWellFormed(events: seq<Event>)
    ensures WellFormed(Batches(events), events)
  {
    if events != [] {
      var n := |events| - 1;
      var e, before := events[n], Batches(events[..n]);
      BatchesWellFormed(events[..n]);
      assert events == events[..n] + [e];
      if Joins(events[..n], e) {
        JoinsLast(before, events[..n], e);
      } else {
        FlattenAppend(before, [e]);
      }
    }
  }

  lemma JoinsLast(before: seq<seq<Event>>, events: seq<Event>, e: Event)
    requires WellFormed(before, events) && Joins(events, e)
    ensures WellFormed(before[..|before| - 1] + [before[|before| - 1] + [e]], events + [e])
  {
    var n := |before| - 1;
    var last := before[n];
    FlattenAppend(before[..n], last + [e]);
    assert Flatten(before[..n]) + last == events;
    hide Flatten;
    assert Flatten(before[..n]) + (last + [e]) == events + [e];
  }

  /** A run of ordinary events adds one batch at most; when it starts one, it is that batch. */
  lemma {:induction false} RunOfOrdinary(events: seq<Event>, run: seq<Event>)
    requires run != [] && forall i :: 0 <= i < |run| ==> !Isolated(run[i])
    ensures if events == [] || Isolated(events[|events| - 1])
            then Batches(events + run) == Batches(events) + [run]
            else |Batches(events + run)| == |Batches(events)|
    decreases |run|
  {
    var n := |run| - 1;
    var e := run[n];
    assert run == run[..n] + [e] && events + run == (events + run[..n]) + [e];
    BatchesAppend(events + run[..n], e);
    if n > 0 {
      RunOfOrdinary(events, run[..n]);
      assert (events + run[..n])[|events| + n - 1] == run[n - 1];
    } else {
      assert events + run[..n] == events && run == [e];
    }
  }

  /** One more batch of another way of sending: the batches grow by one at most, and then by that batch. */
  lemma OneMoreBatch(events: seq<Event>, batch: seq<Event>)
    requires Allowed(batch)
    ensures |Batches(events + batch)| <= |Batches(events)| + 1
    ensures |Batches(events + batch)| == |Batches(events)| + 1 ==> Batches(events + batch) == Batches(events) + [batch]
  {
    if batch == [] {
      assert events + batch == events;
    } else if forall i :: 0 <= i < |batch| ==> !batch[i].AcceptedLineFingerprints? {
      RunOfOrdinary(events, batch);
    } else {
      assert batch == [batch[0]];
      BatchesAppend(events, batch[0]);
    }
  }

  lemma SendsEarlier(other: seq<seq<Event>>, events: seq<Event>)
    requires other != [] && Sends(other, events)
    ensures var n := |other| - 1;
      && Sends(other[..n], Flatten(other[..n])) && Allowed(other[n]) && events == Flatten(other[..n]) + other[n]
  {
    hide Allowed;
  }

  /** No way of sending the events in order with isolated events alone takes fewer requests, and only this one
      takes as few. */
  lemma {:induction false} FewestBatches(events: seq<Event>, other: seq<seq<Event>>)
    requires Sends(other, events)
    ensures |Batches(events)| <= |other|
    ensures |Batches(events)| == |other| ==> other == Batches(events)
    decreases |other|
  {
    if other == [] {
      assert Batches(events) == [];
    } else {
      hide Batches, Allowed, Sends, Flatten;
      var n := |other| - 1;
      var init, last := other[..n], other[n];
      var earlier := Flatten(init);
      SendsEarlier(other, events);
      FewestBatches(earlier, init);
      OneMoreBatch(earlier, last);
      if |Batches(events)| == |other| {
        assert |Batches(earlier)| == n;
        assert Batches(events) == init + [last];
        assert other == init + [last];
      }
    }
  }

  /** The batches once the one being filled is closed. */
  function Closed(batches: seq<seq<Event>>, current: seq<Event>): seq<seq<Event>> {
    if current == [] then batches else batches + [current]
  }

  lemma TakeOne(batches: seq<seq<Event>>, current: seq<Event>, events: seq<Event>, e: Event)
    requires Closed(batches, current) == Batches(events)
    requires current == [] <==> events == [] || Isolated(events[|events| - 1])
    ensures Batches(events + [e]) == if Isolated(e) then Closed(batches, current) + [[e]] else batches + [current + [e]]
  {
    BatchesAppend(events, e);
    hide Batches;
    if current == [] {
      assert current + [e] == [e];
    } else {
      assert Batches(events)[..|batches|] == batches;
    }
  }

  /** The batching loop gives well-formed batches, and the fewest. */
  method TrackEventRequestBatches(events: seq<Event>) returns (batches: seq<seq<Event>>)
    ensures batches == Batches(events)
    ensures Sends(batches, events) && forall i :: 0 <= i < |batches| ==> batches[i] != []
    ensures forall other :: Sends(other, events) ==> |batches| <= |other|
  {
    assert events[..0] == [];
    assert Batches(events[..0]) == [];
    hide Batches, Isolated;
    batches := [];
    var current: seq<Event> := [];
    var i := 0;
    while i < |events|
      invariant 0 <= i <= |events|
      invariant Closed(batches, current) == Batches(events[..i])
      invariant current == [] <==> i == 0 || Isolated(events[i - 1])
    {
      assert events[..i + 1] == events[..i] + [events[i]];
      TakeOne(batches, current, events[..i], events[i]);
      if Isolated(events[i]) {
        if current != [] {
          batches := batches + [current];
          current := [];
        }
        batches := batches + [[events[i]]];
      } else {
        current := current + [events[i]];
      }
      i := i + 1;
    }
    assert events[..i] == events;
    if current != [] {
      batches := batches + [current];
    }
    BatchesWellFormed(events);
    forall other | Sends(other, events) ensures |batches| <= |other| {
      FewestBatches(events, other);
    }
  }
}

/** Client requests: which request a response belongs to, and which steers are reported, told from the facts. */
module AnalyticsRequests {
  import opened Options
  import opened AnalyticsModel
  import AnalyticsThreads

  predicate Sends(f: Fact, c: ConnectionId, r: RequestId) {
    f.RequestSent? && f.connection == c && f.request == r
  }

  predicate Ends(f: Fact, c: ConnectionId, r: RequestId) {
    (f.TurnStartResponse? || f.TurnSteerResponse? || f.ErrorResponse?) && f.connection == c && f.request == r
  }

  /** Where the request still open under this connection and id was sent. */
  function OpenSince(facts: seq<Fact>, c: ConnectionId, r: RequestId): Option<nat> {
    if facts == [] then None
    else
      var n := |facts| - 1;
      if Sends(facts[n], c, r) then Some(n)
      else if Ends(facts[n], c, r) then None
      else OpenSince(facts[..n], c, r)
  }

  lemma {:induction false} OpenSinceBounds(facts: seq<Fact>, c: ConnectionId, r: RequestId)
    ensures var p := OpenSince(facts, c, r); p.Some? ==>
      p.value < |facts| && Sends(facts[p.value], c, r) && forall q :: p.value < q < |facts| ==> !Ends(facts[q], c, r)
  {
    if facts != [] {
      OpenSinceBounds(facts[..|facts| - 1], c, r);
    }
  }

  lemma RequestsAfter(s: State, f: Fact, c: ConnectionId, r: RequestId)
    ensures if Sends(f, c, r) then (c, r) in Next(s, f).requests && Next(s, f).requests[(c, r)] == f.what
            else if Ends(f, c, r) then (c, r) !in Next(s, f).requests
            else && ((c, r) in Next(s, f).requests <==> (c, r) in s.requests)
                 && ((c, r) in s.requests ==> Next(s, f).requests[(c, r)] == s.requests[(c, r)])
  {
    hide NextTurns, NextThreads, NextStarted, NextReviews, NextSummaries;
    assert Next(s, f).requests == NextRequests(s, f);
  }

  /** The requests the reducer remembers are those sent and not answered since, with what was sent last. */
  lemma {:induction false} RequestsTracked(facts: seq<Fact>, c: ConnectionId, r: RequestId)
    ensures var s, p := Run(EMPTY, facts), OpenSince(facts, c, r);
      && ((c, r) in s.requests <==> p.Some?)
      && (p.Some? ==> p.value < |facts| && Sends(facts[p.value], c, r) && s.requests[(c, r)] == facts[p.value].what)
  {
    if facts != [] {
      hide Next;
      var n := |facts| - 1;
      RequestsTracked(facts[..n], c, r);
      RequestsAfter(Run(EMPTY, facts[..n]), facts[n], c, r);
    }
  }

  /** A start or steer response matches exactly an open request of its own kind. */
  lemma MatchedExactly(facts: seq<Fact>, f: Fact)
    requires f.TurnStartResponse? || f.TurnSteerResponse?
    ensures var s, p := Run(EMPTY, facts), OpenSince(facts, f.connection, f.request);
      && (MatchedStart(s, f) <==>
            && f.TurnStartResponse? && p.Some? && p.value < |facts|
            && facts[p.value].RequestSent? && facts[p.value].what.TurnStart?)
      && (MatchedSteer(s, f) <==>
            && f.TurnSteerResponse? && p.Some? && p.value < |facts|
            && facts[p.value].RequestSent? && facts[p.value].what.TurnSteer?)
  {
    RequestsTracked(facts, f.connection, f.request);
  }

  /** What a connection was last initialized with. */
  function LastInitialized(facts: seq<Fact>, c: ConnectionId): Option<Connection> {
    if facts == [] then None
    else
      var f := facts[|facts| - 1];
      if f.Initialize? && f.connection == c then Some(f.state) else LastInitialized(facts[..|facts| - 1], c)
  }

  /** The registered connections are those initialized, as they were last. */
  lemma {:induction false} ConnectionsTracked(facts: seq<Fact>, c: ConnectionId)
    ensures LastInitialized(facts, c) ==
      var s := Run(EMPTY, facts); if c in s.connections then Some(s.connections[c]) else None
  {
    if facts != [] {
      var n := |facts| - 1;
      ConnectionsTracked(facts[..n], c);
      assert Run(EMPTY, facts).connections == NextConnections(Run(EMPTY, facts[..n]), facts[n]);
    }
  }

  /** The steer request a response or an error ends, if there is one. */
  function SteerEnded(facts: seq<Fact>, f: Fact): Option<ClientRequest> {
    if f.TurnSteerResponse? || f.ErrorResponse? then
      var p := OpenSince(facts, f.connection, f.request);
      if p.Some? && p.value < |facts| && facts[p.value].RequestSent? && facts[p.value].what.TurnSteer? then
        Some(facts[p.value].what)
      else None
    else None
  }

  lemma SteerEmits(s: State, f: Fact)
    requires f.TurnSteerResponse? || f.ErrorResponse?
    ensures var key := (f.connection, f.request);
      Emitted(s, f) ==
        if key in s.requests && s.requests[key].TurnSteer? && f.connection in s.connections
           && ThreadKnown(s, s.requests[key].thread)
        then [TurnSteerEvent(s.requests[key].thread, s.requests[key].expectedTurn,
                             if f.TurnSteerResponse? then Some(f.turn) else None)]
        else []
  {
  }

  lemma OthersEmitNoSteers(s: State, f: Fact)
    requires !f.TurnSteerResponse? && !f.ErrorResponse?
    ensures forall i :: 0 <= i < |Emitted(s, f)| ==> !Emitted(s, f)[i].TurnSteerEvent?
  {
    hide ContextOf, Ready, Touched, Concludes, Consumes;
    if f.Stateless? {
      NamedAreOther(f.events);
    }
  }

  /** A steer is reported exactly when a response or an error ends an open steer request of a registered
      connection and a known thread, accepted under the response's turn or rejected; nothing else reports one. */
  lemma SteersExactly(facts: seq<Fact>, f: Fact)
    ensures var s, steer := Run(EMPTY, facts), SteerEnded(facts, f);
      if steer.Some? && steer.value.TurnSteer? && f.connection in s.connections && steer.value.thread in s.threads then
        Emitted(s, f) == [TurnSteerEvent(steer.value.thread, steer.value.expectedTurn,
                                         if f.TurnSteerResponse? then Some(f.turn) else None)]
      else forall i :: 0 <= i < |Emitted(s, f)| ==> !Emitted(s, f)[i].TurnSteerEvent?
  {
    var s := Run(EMPTY, facts);
    if f.TurnSteerResponse? || f.ErrorResponse? {
      RequestsTracked(facts, f.connection, f.request);
      AnalyticsThreads.RunWired(facts);
      hide Run, Emitted, OpenSince;
      SteerEmits(s, f);
    } else {
      hide Run;
      OthersEmitNoSteers(s, f);
    }
  }

  /** No request is ended twice, so no steer is reported twice. */
  lemma EndedOnce(facts: seq<Fact>, j: nat, k: nat)
    requires j < k < |facts| && SteerEnded(facts[..j], facts[j]).Some? && SteerEnded(facts[..k], facts[k]).Some?
    ensures OpenSince(facts[..j], facts[j].connection, facts[j].request) !=
            OpenSince(facts[..k], facts[k].connection, facts[k].request)
  {
    OpenSinceBounds(facts[..j], facts[j].connection, facts[j].request);
    OpenSinceBounds(facts[..k], facts[k].connection, facts[k].request);
  }
}

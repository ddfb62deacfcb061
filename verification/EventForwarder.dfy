/** The in-process event forwarder: a bounded queue between the app-server runtime and its consumer.

    Lossless events wait for room in the queue.  Best-effort events are dropped when the queue is full;
    the drops are counted and reported later by a lag marker.  The consumer runs concurrently, so the
    protocol is a machine whose atomic actions are the single channel operations of both sides, and the
    theorems hold for every interleaving of those actions.  The class at the end is the worker written
    as the source writes it; its methods are proved to perform only runs of that machine. */
module EventForwarder {

  const USIZE_MAX: nat := 0xFFFF_FFFF_FFFF_FFFF

  type RequestId = int

  datatype Notification =
    | TurnCompleted(payload: string)
    | ThreadSettingsUpdated(payload: string)
    | ItemCompleted(payload: string)
    | AgentMessageDelta(payload: string)
    | PlanDelta(payload: string)
    | ReasoningSummaryTextDelta(payload: string)
    | ReasoningTextDelta(payload: string)
    | BestEffort(payload: string)

  datatype ServerRequest =
    | ChatgptAuthTokensRefresh(id: RequestId)
    | OtherRequest(id: RequestId, payload: string)

  datatype Event =
    | Lagged(skipped: nat)
    | ServerNotification(notification: Notification)
    | Request(request: ServerRequest)

  predicate RequiresDelivery(e: Event) {
    e.ServerNotification? && !e.notification.BestEffort?
  }

  predicate IsRefresh(e: Event) {
    e.Request? && e.request.ChatgptAuthTokensRefresh?
  }

  function SaturatingIncrement(n: nat): nat {
    if n < USIZE_MAX then n + 1 else n
  }

  // ---------------------------------------------------------------------------------------------
  // The machine
  // ---------------------------------------------------------------------------------------------

  /** A queue slot: a marker written by the forwarder itself, or the input event with that index. */
  datatype Item = Marker(skipped: nat) | Forwarded(index: nat, event: Event)

  /** The event the consumer sees. */
  function Carried(item: Item): Event {
    match item
    case Marker(n) => Lagged(n)
    case Forwarded(_, e) => e
  }

  /** Where the worker stands inside the forwarding of one event. */
  datatype Task = Idle | Flushing(event: Event) | Sending(event: Event)

  /** What became of an input event. */
  datatype Fate = Enqueued | Dropped

  datatype State = State(
    capacity: nat,
    queue: seq<Item>,
    closed: bool,
    skipped: nat,
    enabled: bool,
    task: Task,
    // histories
    taken: seq<Event>,              // everything the worker took from the runtime
    input: seq<Event>,              // what it handed to the forwarder
    fates: seq<Fate>,               // how each settled input ended
    enqueued: seq<Item>,            // everything ever put in the queue
    received: seq<Item>,            // everything the consumer took out
    refreshFailed: seq<RequestId>,  // requests failed with -32000
    overloadFailed: seq<RequestId>, // requests failed with -32001
    overflow: nat                   // drops that a saturated counter could not count
  )

  function Init(capacity: nat): State {
    State(capacity, [], false, 0, true, Idle, [], [], [], [], [], [], [], 0)
  }

  datatype Action =
    | Take(event: Event)  // the worker takes the next runtime event
    | Advance             // the worker performs its next channel operation
    | Receive             // the consumer takes an item
    | Close               // the consumer drops its end

  /** A blocking send has to wait. */
  predicate Blocked(s: State) {
    s.task != Idle && RequiresDelivery(s.task.event) && !s.closed && |s.queue| >= s.capacity
  }

  predicate CanDo(s: State, a: Action) {
    match a
    case Take(_) => s.enabled && s.task == Idle
    case Advance => s.task != Idle && !Blocked(s)
    case Receive => !s.closed && s.queue != []
    case Close => !s.closed
  }

  function Push(s: State, item: Item): State {
    s.(queue := s.queue + [item], enqueued := s.enqueued + [item])
  }

  function DisableStream(s: State): State {
    s.(enabled := false, task := Idle)
  }

  function Drop(s: State, e: Event): State {
    s.(skipped := SaturatingIncrement(s.skipped),
       overflow := if s.skipped < USIZE_MAX then s.overflow else s.overflow + 1,
       fates := s.fates + [Dropped],
       overloadFailed := if e.Request? then s.overloadFailed + [e.request.id] else s.overloadFailed,
       task := Idle)
  }

  function Flush(s: State): State
    requires s.task.Flushing?
  {
    if s.closed then DisableStream(s)
    else if |s.queue| >= s.capacity then Drop(s, s.task.event)
    else Push(s, Marker(s.skipped)).(skipped := 0, task := Sending(s.task.event))
  }

  function Deliver(s: State): State
    requires s.task.Sending?
  {
    if s.closed then DisableStream(s)
    else if |s.queue| >= s.capacity then Drop(s, s.task.event)
    else Push(s, Forwarded(|s.fates|, s.task.event)).(fates := s.fates + [Enqueued], task := Idle)
  }

  function TakeEvent(s: State, e: Event): State {
    if IsRefresh(e) then
      s.(taken := s.taken + [e], refreshFailed := s.refreshFailed + [e.request.id])
    else
      s.(taken := s.taken + [e], input := s.input + [e],
         task := if s.skipped > 0 then Flushing(e) else Sending(e))
  }

  function Apply(s: State, a: Action): State
    requires CanDo(s, a)
  {
    match a
    case Take(e) => TakeEvent(s, e)
    case Advance => if s.task.Flushing? then Flush(s) else Deliver(s)
    case Receive => s.(queue := s.queue[1..], received := s.received + [s.queue[0]])
    case Close => s.(closed := true)
  }

  /** s leads to t by the given interleaving of worker and consumer actions. */
  ghost predicate Leads(s: State, actions: seq<Action>, t: State)
    decreases |actions|
  {
    if actions == [] then s == t
    else CanDo(s, actions[0]) && Leads(Apply(s, actions[0]), actions[1..], t)
  }

  // ---------------------------------------------------------------------------------------------
  // Specification of the histories
  // ---------------------------------------------------------------------------------------------

  function Sent(items: seq<Item>): nat {
    if items == [] then 0
    else Sent(items[..|items| - 1]) + if items[|items| - 1].Forwarded? then 1 else 0
  }

  function Reported(items: seq<Item>): nat {
    if items == [] then 0
    else Reported(items[..|items| - 1]) + if items[|items| - 1].Marker? then items[|items| - 1].skipped else 0
  }

  /** The items of the queue that carry input events. */
  function Payload(items: seq<Item>): seq<Item> {
    if items == [] then []
    else
      var last := items[|items| - 1];
      Payload(items[..|items| - 1]) + if last.Forwarded? then [last] else []
  }

  /** The input with the dropped events removed, each survivor with its index. */
  function Kept(input: seq<Event>, fates: seq<Fate>): seq<Item>
    requires |fates| <= |input|
  {
    if fates == [] then []
    else
      var n := |fates| - 1;
      Kept(input, fates[..n]) + if fates[n] == Enqueued then [Forwarded(n, input[n])] else []
  }

  /** The ids of the dropped server requests. */
  function DroppedRequests(input: seq<Event>, fates: seq<Fate>): seq<RequestId>
    requires |fates| <= |input|
  {
    if fates == [] then []
    else
      var n := |fates| - 1;
      DroppedRequests(input, fates[..n]) +
      if fates[n] == Dropped && input[n].Request? then [input[n].request.id] else []
  }

  function RefreshIds(events: seq<Event>): seq<RequestId> {
    if events == [] then []
    else
      var last := events[|events| - 1];
      RefreshIds(events[..|events| - 1]) + if IsRefresh(last) then [last.request.id] else []
  }

  function WithoutRefreshes(events: seq<Event>): seq<Event> {
    if events == [] then []
    else
      var last := events[|events| - 1];
      WithoutRefreshes(events[..|events| - 1]) + if IsRefresh(last) then [] else [last]
  }

  /** Every delivered event sits at the input position the consumer can compute from what it saw before. */
  ghost predicate Aligned(items: seq<Item>, overflow: nat) {
    forall k :: 0 <= k < |items| && items[k].Forwarded? ==>
      Sent(items[..k]) + Reported(items[..k]) <= items[k].index
        <= Sent(items[..k]) + Reported(items[..k]) + overflow
  }

  /** Events in flight: taken by the worker and neither enqueued nor dropped. */
  function InFlight(s: State): nat {
    if s.task != Idle || !s.enabled then 1 else 0
  }

  // ---------------------------------------------------------------------------------------------
  // The invariant
  // ---------------------------------------------------------------------------------------------

  ghost predicate Control(s: State) {
    && s.skipped <= USIZE_MAX
    && |s.queue| <= s.capacity
    && (s.enabled || (s.closed && s.task == Idle))
    && |s.input| == |s.fates| + InFlight(s)
    && (s.task != Idle ==> s.input[|s.fates|] == s.task.event)
    && (s.task.Sending? ==> s.skipped == 0)
    && (s.task.Flushing? ==> s.skipped > 0)
    && s.enqueued == s.received + s.queue
  }

  /** Who got which event. */
  ghost predicate Routed(taken: seq<Event>, input: seq<Event>, fates: seq<Fate>, enqueued: seq<Item>,
                         refreshFailed: seq<RequestId>, overloadFailed: seq<RequestId>)
  {
    && input == WithoutRefreshes(taken)
    && refreshFailed == RefreshIds(taken)
    && |fates| <= |input|
    && Payload(enqueued) == Kept(input, fates)
    && overloadFailed == DroppedRequests(input, fates)
    && (forall i :: 0 <= i < |fates| && fates[i] == Dropped ==> !RequiresDelivery(input[i]))
  }

  /** What the markers report. */
  ghost predicate Counted(settled: nat, enqueued: seq<Item>, skipped: nat, overflow: nat) {
    && settled == Sent(enqueued) + Reported(enqueued) + skipped + overflow
    && (overflow > 0 ==> settled > USIZE_MAX)
    && Aligned(enqueued, overflow)
  }

  ghost predicate Invariant(s: State) {
    && Control(s)
    && Routed(s.taken, s.input, s.fates, s.enqueued, s.refreshFailed, s.overloadFailed)
    && Counted(|s.fates|, s.enqueued, s.skipped, s.overflow)
  }

  lemma InitInvariant(capacity: nat)
    ensures Invariant(Init(capacity))
  {
  }

  lemma {:induction false} KeptIgnoresLaterInput(input: seq<Event>, e: Event, fates: seq<Fate>)
    requires |fates| <= |input|
    ensures Kept(input + [e], fates) == Kept(input, fates)
    ensures DroppedRequests(input + [e], fates) == DroppedRequests(input, fates)
  {
    if fates != [] {
      KeptIgnoresLaterInput(input, e, fates[..|fates| - 1]);
    }
  }

  lemma AppendItem(items: seq<Item>, item: Item)
    ensures Sent(items + [item]) == Sent(items) + if item.Forwarded? then 1 else 0
    ensures Reported(items + [item]) == Reported(items) + if item.Marker? then item.skipped else 0
    ensures Payload(items + [item]) == Payload(items) + if item.Forwarded? then [item] else []
  {
    assert (items + [item])[..|items|] == items;
  }

  lemma AppendFate(input: seq<Event>, fates: seq<Fate>, fate: Fate)
    requires |fates| < |input|
    ensures Kept(input, fates + [fate]) ==
      Kept(input, fates) + if fate == Enqueued then [Forwarded(|fates|, input[|fates|])] else []
    ensures DroppedRequests(input, fates + [fate]) == DroppedRequests(input, fates) +
      if fate == Dropped && input[|fates|].Request? then [input[|fates|].request.id] else []
  {
    assert (fates + [fate])[..|fates|] == fates;
  }

  lemma AlignedPush(items: seq<Item>, item: Item, overflow: nat)
    requires Aligned(items, overflow)
    requires item.Forwarded? ==> item.index == Sent(items) + Reported(items) + overflow
    ensures Aligned(items + [item], overflow)
  {
    var more := items + [item];
    forall k | 0 <= k < |more| && more[k].Forwarded?
      ensures Sent(more[..k]) + Reported(more[..k]) <= more[k].index
                <= Sent(more[..k]) + Reported(more[..k]) + overflow
    {
      if k < |items| {
        assert more[..k] == items[..k];
      } else {
        assert more[..k] == items;
      }
    }
  }

  lemma AppendTaken(taken: seq<Event>, e: Event)
    ensures WithoutRefreshes(taken + [e]) == WithoutRefreshes(taken) + if IsRefresh(e) then [] else [e]
    ensures RefreshIds(taken + [e]) == RefreshIds(taken) + if IsRefresh(e) then [e.request.id] else []
  {
    assert (taken + [e])[..|taken|] == taken;
  }

  lemma TakeKeepsInvariant(s: State, e: Event)
    requires Invariant(s) && CanDo(s, Take(e))
    ensures Invariant(TakeEvent(s, e))
  {
    AppendTaken(s.taken, e);
    KeptIgnoresLaterInput(s.input, e, s.fates);
  }

  lemma DropRouted(s: State, t: State)
    requires Invariant(s) && s.task != Idle && !RequiresDelivery(s.task.event) && t == Drop(s, s.task.event)
    ensures Routed(t.taken, t.input, t.fates, t.enqueued, t.refreshFailed, t.overloadFailed)
  {
    AppendFate(s.input, s.fates, Dropped);
  }

  lemma DropCounted(s: State, t: State)
    requires Invariant(s) && s.task != Idle && t == Drop(s, s.task.event)
    ensures Counted(|t.fates|, t.enqueued, t.skipped, t.overflow)
  {
  }

  lemma DropKeepsInvariant(s: State)
    requires Invariant(s) && s.task != Idle && s.enabled && !RequiresDelivery(s.task.event)
    ensures Invariant(Drop(s, s.task.event))
  {
    DropRouted(s, Drop(s, s.task.event));
    DropCounted(s, Drop(s, s.task.event));
  }

  lemma PushMarkerKeepsInvariant(s: State)
    requires Invariant(s) && s.task.Flushing? && s.enabled && |s.queue| < s.capacity
    ensures Invariant(Push(s, Marker(s.skipped)).(skipped := 0, task := Sending(s.task.event)))
  {
    AppendItem(s.enqueued, Marker(s.skipped));
    AlignedPush(s.enqueued, Marker(s.skipped), s.overflow);
  }

  lemma PushEventRouted(s: State, item: Item)
    requires Invariant(s) && s.task.Sending?
    requires item == Forwarded(|s.fates|, s.task.event)
    ensures Routed(s.taken, s.input, s.fates + [Enqueued], s.enqueued + [item], s.refreshFailed, s.overloadFailed)
  {
    AppendItem(s.enqueued, item);
    AppendFate(s.input, s.fates, Enqueued);
  }

  lemma PushEventCounted(s: State, item: Item)
    requires Invariant(s) && s.task.Sending?
    requires item == Forwarded(|s.fates|, s.task.event)
    ensures Counted(|s.fates| + 1, s.enqueued + [item], 0, s.overflow)
  {
    AppendItem(s.enqueued, item);
    AlignedPush(s.enqueued, item, s.overflow);
  }

  lemma PushEventKeepsInvariant(s: State)
    requires Invariant(s) && s.task.Sending? && s.enabled && !s.closed && |s.queue| < s.capacity
    ensures Invariant(Deliver(s))
  {
    var item := Forwarded(|s.fates|, s.task.event);
    PushEventRouted(s, item);
    PushEventCounted(s, item);
    assert Control(Deliver(s));
  }

  lemma AdvanceKeepsInvariant(s: State)
    requires Invariant(s) && CanDo(s, Advance)
    ensures Invariant(Apply(s, Advance))
  {
    if s.closed {
    } else if |s.queue| >= s.capacity {
      DropKeepsInvariant(s);
    } else if s.task.Flushing? {
      PushMarkerKeepsInvariant(s);
    } else {
      PushEventKeepsInvariant(s);
    }
  }

  lemma ActionKeepsInvariant(s: State, a: Action)
    requires Invariant(s) && CanDo(s, a)
    ensures Invariant(Apply(s, a))
  {
    match a
    case Take(e) => TakeKeepsInvariant(s, e);
    case Advance => AdvanceKeepsInvariant(s);
    case Receive =>
    case Close =>
  }

  lemma {:induction false} RunKeepsInvariant(s: State, actions: seq<Action>, t: State)
    requires Invariant(s) && Leads(s, actions, t)
    ensures Invariant(t)
    decreases |actions|
  {
    if actions != [] {
      ActionKeepsInvariant(s, actions[0]);
      RunKeepsInvariant(Apply(s, actions[0]), actions[1..], t);
    }
  }

  // ---------------------------------------------------------------------------------------------
  // The theorems
  // ---------------------------------------------------------------------------------------------

  lemma {:induction false} PayloadCounts(items: seq<Item>, x: Item)
    requires x.Forwarded?
    ensures multiset(Payload(items))[x] == multiset(items)[x]
  {
    if items != [] {
      var n := |items| - 1;
      assert items == items[..n] + [items[n]];
      PayloadCounts(items[..n], x);
    }
  }

  lemma {:induction false} KeptCounts(input: seq<Event>, fates: seq<Fate>, x: Item)
    requires |fates| <= |input|
    ensures multiset(Kept(input, fates))[x] ==
      if x.Forwarded? && x.index < |fates| && fates[x.index] == Enqueued && x.event == input[x.index] then 1 else 0
  {
    if fates != [] {
      KeptCounts(input, fates[..|fates| - 1], x);
    }
  }

  /** Exactly the inputs whose fate is Enqueued were put in the queue, each once and unchanged. */
  lemma EnqueuedExactlyOnce(s: State, x: Item)
    requires Invariant(s) && x.Forwarded?
    ensures multiset(s.enqueued)[x] ==
      if x.index < |s.fates| && s.fates[x.index] == Enqueued && x.event == s.input[x.index] then 1 else 0
  {
    PayloadCounts(s.enqueued, x);
    KeptCounts(s.input, s.fates, x);
  }

  /** Whatever the interleaving, the queue saw the input with only best-effort events removed (lag reports of the
      runtime, server requests and notifications outside the transcript and completion tier), and the
      markers account for every removed event: a delivered event's input index is the number of events
      and reported drops before it.  Only a counter saturated at usize::MAX can lose count. */
  lemma DeliveryTheorem(capacity: nat, actions: seq<Action>, s: State)
    requires Leads(Init(capacity), actions, s)
    ensures |s.fates| + InFlight(s) == |s.input|
    ensures Payload(s.enqueued) == Kept(s.input, s.fates)
    ensures forall i :: 0 <= i < |s.fates| && s.fates[i] == Dropped ==>
      s.input[i].Lagged? || s.input[i].Request? || s.input[i].notification.BestEffort?
    ensures |s.input| == Sent(s.enqueued) + Reported(s.enqueued) + s.skipped + s.overflow + InFlight(s)
    ensures Aligned(s.enqueued, s.overflow)
    ensures |s.input| <= 0xFFFF_FFFF_FFFF_FFFF ==> s.overflow == 0
    ensures forall k :: 0 <= k < |s.enqueued| && s.enqueued[k].Forwarded? ==>
      s.enqueued[k].index < |s.input| && s.enqueued[k].event == s.input[s.enqueued[k].index]
    ensures s.received + s.queue == s.enqueued && |s.queue| <= capacity
  {
    hide Leads;
    InitInvariant(capacity);
    RunKeepsInvariant(Init(capacity), actions, s);
    CapacityFixed(Init(capacity), actions, s);
    forall k | 0 <= k < |s.enqueued| && s.enqueued[k].Forwarded?
      ensures s.enqueued[k].index < |s.input| && s.enqueued[k].event == s.input[s.enqueued[k].index]
    {
      assert s.enqueued[k] in multiset(s.enqueued);
      EnqueuedExactlyOnce(s, s.enqueued[k]);
    }
  }

  lemma {:induction false} CapacityFixed(s: State, actions: seq<Action>, t: State)
    requires Leads(s, actions, t)
    ensures t.capacity == s.capacity
    decreases |actions|
  {
    if actions != [] {
      CapacityFixed(Apply(s, actions[0]), actions[1..], t);
    }
  }

  function Requests(events: seq<Event>): nat {
    if events == [] then 0
    else Requests(events[..|events| - 1]) + if events[|events| - 1].Request? then 1 else 0
  }

  function EnqueuedRequests(items: seq<Item>): nat {
    if items == [] then 0
    else
      var last := items[|items| - 1];
      EnqueuedRequests(items[..|items| - 1]) + if last.Forwarded? && last.event.Request? then 1 else 0
  }

  lemma AppendRequest(events: seq<Event>, e: Event)
    ensures Requests(events + [e]) == Requests(events) + if e.Request? then 1 else 0
  {
    assert (events + [e])[..|events|] == events;
  }

  lemma AppendEnqueuedRequest(items: seq<Item>, item: Item)
    ensures EnqueuedRequests(items + [item]) ==
      EnqueuedRequests(items) + if item.Forwarded? && item.event.Request? then 1 else 0
  {
    assert (items + [item])[..|items|] == items;
  }

  lemma {:induction false} RequestsSplit(taken: seq<Event>)
    ensures Requests(taken) == |RefreshIds(taken)| + Requests(WithoutRefreshes(taken))
  {
    if taken != [] {
      var n := |taken| - 1;
      RequestsSplit(taken[..n]);
      AppendRequest(WithoutRefreshes(taken[..n]), taken[n]);
      assert WithoutRefreshes(taken[..n]) + [] == WithoutRefreshes(taken[..n]);
    }
  }

  function RequestsBefore(events: seq<Event>, n: nat): nat
    requires n <= |events|
  {
    if n == 0 then 0 else RequestsBefore(events, n - 1) + if events[n - 1].Request? then 1 else 0
  }

  lemma {:induction false} RequestsOfPrefix(events: seq<Event>, n: nat)
    requires n <= |events|
    ensures Requests(events[..n]) == RequestsBefore(events, n)
  {
    if n > 0 {
      RequestsOfPrefix(events, n - 1);
      assert events[..n] == events[..n - 1] + [events[n - 1]];
      AppendRequest(events[..n - 1], events[n - 1]);
    }
  }

  lemma {:induction false} RequestsSettled(input: seq<Event>, fates: seq<Fate>)
    requires |fates| <= |input|
    ensures RequestsBefore(input, |fates|) == EnqueuedRequests(Kept(input, fates)) + |DroppedRequests(input, fates)|
  {
    if fates != [] {
      var n := |fates| - 1;
      var kept := Kept(input, fates[..n]);
      RequestsSettled(input, fates[..n]);
      AppendEnqueuedRequest(kept, Forwarded(n, input[n]));
      assert kept + [] == kept;
    }
  }

  lemma {:induction false} EnqueuedRequestsPayload(items: seq<Item>)
    ensures EnqueuedRequests(Payload(items)) == EnqueuedRequests(items)
  {
    if items != [] {
      var n := |items| - 1;
      var rest := Payload(items[..n]);
      EnqueuedRequestsPayload(items[..n]);
      AppendEnqueuedRequest(rest, items[n]);
      assert rest + [] == rest;
    }
  }

  lemma RequestsConserved(s: State)
    requires Invariant(s)
    ensures |s.input| == |s.fates| + InFlight(s)
    ensures Requests(s.taken) == |s.refreshFailed| + |s.overloadFailed| + EnqueuedRequests(s.enqueued) +
      if InFlight(s) == 1 && s.input[|s.fates|].Request? then 1 else 0
  {
    hide Counted, Aligned;
    RequestsSplit(s.taken);
    RequestsSettled(s.input, s.fates);
    EnqueuedRequestsPayload(s.enqueued);
    RequestsOfPrefix(s.input, |s.input|);
    assert s.input[..|s.input|] == s.input;
  }

  lemma {:induction false} OnlyRefreshesRefused(taken: seq<Event>, e: Event)
    ensures multiset(WithoutRefreshes(taken))[e] ==
      if e.Request? && e.request.ChatgptAuthTokensRefresh? then 0 else multiset(taken)[e]
  {
    if taken != [] {
      var n := |taken| - 1;
      assert taken == taken[..n] + [taken[n]];
      OnlyRefreshesRefused(taken[..n], e);
    }
  }

  lemma {:induction false} EachRefreshRefused(taken: seq<Event>, id: RequestId)
    ensures multiset(RefreshIds(taken))[id] == multiset(taken)[Request(ChatgptAuthTokensRefresh(id))]
  {
    if taken != [] {
      var n := |taken| - 1;
      assert taken == taken[..n] + [taken[n]];
      EachRefreshRefused(taken[..n], id);
    }
  }

  /** Every server request taken from the runtime is enqueued once for the consumer or failed once back
      to the server; the only exception is the event in flight when the consumer is found closed. */
  lemma RequestsAnswered(capacity: nat, actions: seq<Action>, s: State)
    requires Leads(Init(capacity), actions, s)
    ensures s.refreshFailed == RefreshIds(s.taken) && s.input == WithoutRefreshes(s.taken)
    ensures forall e: Event ::
      (multiset(s.input)[e] == if e.Request? && e.request.ChatgptAuthTokensRefresh? then 0 else multiset(s.taken)[e])
    ensures forall id: RequestId ::
      multiset(s.refreshFailed)[id] == multiset(s.taken)[Request(ChatgptAuthTokensRefresh(id))]
    ensures |s.input| == |s.fates| + InFlight(s) && s.overloadFailed == DroppedRequests(s.input, s.fates)
    ensures forall i :: 0 <= i < |s.fates| ==>
      multiset(s.enqueued)[Forwarded(i, s.input[i])] == if s.fates[i] == Enqueued then 1 else 0
    ensures Requests(s.taken) == |s.refreshFailed| + |s.overloadFailed| + EnqueuedRequests(s.enqueued) +
      if InFlight(s) == 1 && s.input[|s.fates|].Request? then 1 else 0
    ensures s.enabled && s.task == Idle ==> InFlight(s) == 0
    ensures !s.enabled ==> s.closed
  {
    hide Leads;
    InitInvariant(capacity);
    RunKeepsInvariant(Init(capacity), actions, s);
    RequestsConserved(s);
    forall e: Event
      ensures multiset(s.input)[e] ==
        if e.Request? && e.request.ChatgptAuthTokensRefresh? then 0 else multiset(s.taken)[e]
    {
      OnlyRefreshesRefused(s.taken, e);
    }
    forall id: RequestId
      ensures multiset(s.refreshFailed)[id] == multiset(s.taken)[Request(ChatgptAuthTokensRefresh(id))]
    {
      EachRefreshRefused(s.taken, id);
    }
    forall i | 0 <= i < |s.fates|
      ensures multiset(s.enqueued)[Forwarded(i, s.input[i])] == if s.fates[i] == Enqueued then 1 else 0
    {
      EnqueuedExactlyOnce(s, Forwarded(i, s.input[i]));
    }
  }

  /** The worker waits exactly on a full open queue with a lossless notification, for a consumer that can move,
      and one receive or a close sets it free again; other events never wait. */
  lemma BlockedOnlyByConsumer(capacity: nat, actions: seq<Action>, s: State)
    requires capacity >= 1 && Leads(Init(capacity), actions, s) && s.task != Idle
    ensures CanDo(s, Advance) <==>
      || s.closed || |s.queue| < capacity
      || s.task.event.Lagged? || s.task.event.Request? || s.task.event.notification.BestEffort?
    ensures !CanDo(s, Advance) ==> CanDo(s, Receive) && CanDo(Apply(s, Receive), Advance)
    ensures !CanDo(s, Advance) ==> CanDo(s, Close) && CanDo(Apply(s, Close), Advance)
  {
    hide Leads;
    InitInvariant(capacity);
    RunKeepsInvariant(Init(capacity), actions, s);
    CapacityFixed(Init(capacity), actions, s);
  }

  // ---------------------------------------------------------------------------------------------
  // The worker
  // ---------------------------------------------------------------------------------------------

  lemma {:induction false} LeadsTransitive(s: State, a: seq<Action>, t: State, b: seq<Action>, u: State)
    requires Leads(s, a, t) && Leads(t, b, u)
    ensures Leads(s, a + b, u)
    decreases |a|
  {
    if a == [] {
      assert a + b == b;
    } else {
      LeadsTransitive(Apply(s, a[0]), a[1..], t, b, u);
      assert (a + b)[1..] == a[1..] + b;
    }
  }

  lemma LeadsThen(s: State, actions: seq<Action>, t: State, a: Action)
    requires Leads(s, actions, t) && CanDo(t, a)
    ensures Leads(s, actions + [a], Apply(t, a))
  {
    var u := Apply(t, a);
    assert [a][1..] == [] && Leads(u, [], u);
    assert Leads(t, [a], u);
    LeadsTransitive(s, actions, t, [a], u);
  }

  /** Pending stands for a blocking send whose consumer never moved again. */
  datatype SendResult = Accepted | QueueFull | ChannelClosed | Pending

  datatype ForwardEventResult = Continue | StreamClosed | StillWaiting

  /** The consumer's side of a schedule; Yield hands the processor to the worker. */
  datatype ConsumerMove = Recv | Hangup | Yield

  /** A receive on an empty queue and a second hangup do nothing. */
  function ConsumerStep(s: State, move: ConsumerMove): State {
    if move == Recv && CanDo(s, Receive) then Apply(s, Receive)
    else if move == Hangup && CanDo(s, Close) then Apply(s, Close)
    else s
  }

  /** Only the consumer moved. */
  ghost predicate SameInputs(s: State, t: State) {
    t.taken == s.taken && t.input == s.input && t.fates == s.fates
  }

  /** The event in flight got its fate. */
  ghost predicate Settled(s: State, t: State) {
    t.taken == s.taken && t.input == s.input && |t.fates| == |s.fates| + 1
  }

  class Forwarder {
    const capacity: nat
    var queue: seq<Event>
    var closed: bool
    var skippedEvents: nat
    var eventStreamEnabled: bool
    var refreshFailed: seq<RequestId>
    var overloadFailed: seq<RequestId>
    ghost var items: seq<Item>  // the queue, with the forwarder's own markers told apart
    ghost var task: Task
    ghost var history: State  // only its taken, input, fates, enqueued, received and overflow matter

    ghost function View(): State
      reads this
    {
      history.(capacity := capacity, queue := items, closed := closed, skipped := skippedEvents,
               enabled := eventStreamEnabled, refreshFailed := refreshFailed,
               overloadFailed := overloadFailed, task := task)
    }

    ghost predicate Valid()
      reads this
    {
      |queue| == |items| && forall i :: 0 <= i < |queue| ==> queue[i] == Carried(items[i])
    }

    constructor (channelCapacity: nat)
      ensures Valid() && View() == Init(if channelCapacity > 1 then channelCapacity else 1)
    {
      capacity := if channelCapacity > 1 then channelCapacity else 1;
      queue, closed, skippedEvents, eventStreamEnabled := [], false, 0, true;
      refreshFailed, overloadFailed := [], [];
      items, task, history := [], Idle, Init(0);
    }

    method Consume(move: ConsumerMove, ghost start: State, ghost past: seq<Action>) returns (ghost trace: seq<Action>)
      requires Valid() && Leads(start, past, View())
      modifies this`queue, this`items, this`closed, this`history
      ensures Valid() && Leads(start, trace, View())
      ensures View() == ConsumerStep(old(View()), move)
    {
      trace := past;
      if move == Recv && !closed && queue != [] {
        LeadsThen(start, past, View(), Receive);
        trace := past + [Receive];
        history := history.(received := history.received + [items[0]]);
        queue, items := queue[1..], items[1..];
      } else if move == Hangup && !closed {
        LeadsThen(start, past, View(), Close);
        trace := past + [Close];
        closed := true;
      }
    }

    /** Lets the consumer run until it yields. */
    method Interleave(env: seq<ConsumerMove>, ghost start: State, ghost past: seq<Action>)
      returns (rest: seq<ConsumerMove>, ghost trace: seq<Action>)
      requires Valid() && Leads(start, past, View())
      modifies this`queue, this`items, this`closed, this`history
      ensures Valid() && Leads(start, trace, View())
      ensures SameInputs(old(View()), View())
    {
      rest, trace := env, past;
      while rest != [] && rest[0] != Yield
        invariant SameInputs(old(View()), View())
        invariant Valid() && Leads(start, trace, View())
        decreases |rest|
      {
        trace := Consume(rest[0], start, trace);
        rest := rest[1..];
      }
      if rest != [] {
        rest := rest[1..];
      }
    }

    method TrySend(event: Event, ghost item: Item) returns (result: SendResult)
      requires Valid() && Carried(item) == event
      modifies this`queue, this`items, this`history
      ensures Valid()
      ensures result == if closed then ChannelClosed else if |old(queue)| < capacity then Accepted else QueueFull
      ensures View() == if result == Accepted then Push(old(View()), item) else old(View())
    {
      if closed {
        return ChannelClosed;
      } else if |queue| >= capacity {
        return QueueFull;
      }
      queue, items := queue + [event], items + [item];
      history := history.(enqueued := history.enqueued + [item]);
      return Accepted;
    }

    /** Lets the consumer run; before a lossless send, until it makes room, hangs up or stops moving. */
    method AwaitChannel(event: Event, env: seq<ConsumerMove>, ghost start: State, ghost past: seq<Action>)
      returns (rest: seq<ConsumerMove>, ghost trace: seq<Action>)
      requires Valid() && Leads(start, past, View())
      modifies this`queue, this`items, this`closed, this`history
      ensures Valid() && Leads(start, trace, View())
      ensures SameInputs(old(View()), View())
      ensures RequiresDelivery(event) ==> rest == [] || closed || |queue| < capacity
    {
      rest, trace := Interleave(env, start, past);
      while RequiresDelivery(event) && rest != [] && !closed && |queue| >= capacity
        invariant Valid() && Leads(start, trace, View())
        invariant SameInputs(old(View()), View())
        decreases |rest|
      {
        trace := Consume(rest[0], start, trace);
        rest := rest[1..];
      }
    }

    method DropEvent(event: Event)
      requires Valid() && task != Idle && task.event == event
      modifies this
      ensures Valid() && eventStreamEnabled == old(eventStreamEnabled) && task == Idle
      ensures View() == Drop(old(View()), event)
    {
      history := history.(fates := history.fates + [Dropped],
                          overflow := if skippedEvents < USIZE_MAX then history.overflow else history.overflow + 1);
      task := Idle;
      if skippedEvents < USIZE_MAX {
        skippedEvents := skippedEvents + 1;
      }
      if event.Request? {
        overloadFailed := overloadFailed + [event.request.id];
      }
    }

    /** Reports the drops so far; continues with the event itself only if the marker got in. */
    method FlushMarker(event: Event, env: seq<ConsumerMove>, ghost start: State, ghost past: seq<Action>)
      returns (sent: SendResult, rest: seq<ConsumerMove>, ghost trace: seq<Action>)
      requires Valid() && Leads(start, past, View()) && task == Flushing(event)
      modifies this
      ensures Valid() && eventStreamEnabled == old(eventStreamEnabled)
      ensures sent == ChannelClosed ==> task == Idle && Leads(start, trace, View().(enabled := false))
      ensures sent != ChannelClosed ==> Leads(start, trace, View())
      ensures sent == Accepted ==> task == Sending(event) && SameInputs(old(View()), View())
      ensures sent == QueueFull ==> task == Idle && Settled(old(View()), View())
      ensures sent == QueueFull ==> !event.ServerNotification? || event.notification.BestEffort?
      ensures sent == ChannelClosed ==> closed && SameInputs(old(View()), View())
      ensures sent == Pending ==> Blocked(View()) && rest == [] && SameInputs(old(View()), View())
      ensures sent == Pending ==> event.ServerNotification? && !event.notification.BestEffort?
    {
      rest, trace := AwaitChannel(event, env, start, past);
      if RequiresDelivery(event) && !closed && |queue| >= capacity {
        return Pending, rest, trace;
      }
      LeadsThen(start, trace, View(), Advance);
      trace := trace + [Advance];
      sent := TrySend(Lagged(skippedEvents), Marker(skippedEvents));
      if sent == Accepted {
        skippedEvents := 0;
        task := Sending(event);
      } else if sent == QueueFull {
        DropEvent(event);
      } else {
        task := Idle;
      }
    }

    method SendEvent(event: Event, env: seq<ConsumerMove>, ghost start: State, ghost past: seq<Action>)
      returns (sent: SendResult, rest: seq<ConsumerMove>, ghost trace: seq<Action>)
      requires Valid() && Leads(start, past, View()) && task == Sending(event)
      modifies this
      ensures Valid() && eventStreamEnabled == old(eventStreamEnabled)
      ensures sent == ChannelClosed ==> task == Idle && Leads(start, trace, View().(enabled := false))
      ensures sent != ChannelClosed ==> Leads(start, trace, View())
      ensures sent == Accepted || sent == QueueFull ==> task == Idle && Settled(old(View()), View())
      ensures sent == Accepted ==> View().fates == old(View()).fates + [Enqueued]
      ensures sent == QueueFull ==> !event.ServerNotification? || event.notification.BestEffort?
      ensures sent == ChannelClosed ==> closed && SameInputs(old(View()), View())
      ensures sent == Pending ==> Blocked(View()) && rest == [] && SameInputs(old(View()), View())
      ensures sent == Pending ==> event.ServerNotification? && !event.notification.BestEffort?
    {
      rest, trace := AwaitChannel(event, env, start, past);
      if RequiresDelivery(event) && !closed && |queue| >= capacity {
        return Pending, rest, trace;
      }
      LeadsThen(start, trace, View(), Advance);
      trace := trace + [Advance];
      sent := TrySend(event, Forwarded(|history.fates|, event));
      if sent == Accepted {
        history := history.(fates := history.fates + [Enqueued]);
        task := Idle;
      } else if sent == QueueFull {
        DropEvent(event);
      } else {
        task := Idle;
      }
    }

    /** Forwards one event, with the consumer running between the channel operations. */
    method ForwardEvent(event: Event, env: seq<ConsumerMove>, ghost start: State, ghost past: seq<Action>)
      returns (result: ForwardEventResult, rest: seq<ConsumerMove>, ghost trace: seq<Action>)
      requires Valid() && Leads(start, past, View()) && eventStreamEnabled
      requires task == if skippedEvents > 0 then Flushing(event) else Sending(event)
      modifies this
      ensures Valid() && eventStreamEnabled
      ensures result == StreamClosed ==> Leads(start, trace, View().(enabled := false))
      ensures result != StreamClosed ==> Leads(start, trace, View())
      ensures result == Continue ==> task == Idle && Settled(old(View()), View())
      ensures result == Continue && event.ServerNotification? && !event.notification.BestEffort? ==>
        View().fates == old(View()).fates + [Enqueued]
      ensures result == StillWaiting ==> event.ServerNotification? && !event.notification.BestEffort?
      ensures result == StreamClosed ==> task == Idle && closed && SameInputs(old(View()), View())
      ensures result == StillWaiting ==> Blocked(View()) && rest == [] && SameInputs(old(View()), View())
    {
      var sent: SendResult;
      rest, trace := env, past;
      if skippedEvents > 0 {
        sent, rest, trace := FlushMarker(event, rest, start, trace);
        if sent == ChannelClosed {
          return StreamClosed, rest, trace;
        } else if sent == Pending {
          return StillWaiting, rest, trace;
        } else if sent == QueueFull {
          return Continue, rest, trace;
        }
      }
      sent, rest, trace := SendEvent(event, rest, start, trace);
      result := if sent == ChannelClosed then StreamClosed else if sent == Pending then StillWaiting else Continue;
    }

    /** The worker's event branch.  Its runs are runs of the machine that take exactly this event and come
        back idle unless the consumer leaves a blocking send waiting, so the theorems above apply to it. */
    method OnRuntimeEvent(event: Event, env: seq<ConsumerMove>, ghost start: State, ghost past: seq<Action>)
      returns (rest: seq<ConsumerMove>, ghost trace: seq<Action>)
      requires Valid() && Leads(start, past, View()) && eventStreamEnabled && task == Idle
      modifies this
      ensures Valid() && Leads(start, trace, View())
      ensures View().taken == old(View().taken) + [event]
      ensures task == Idle || (Blocked(View()) && rest == [])
    {
      LeadsThen(start, past, View(), Take(event));
      rest, trace := env, past + [Take(event)];
      history := history.(taken := history.taken + [event]);
      if IsRefresh(event) {
        refreshFailed := refreshFailed + [event.request.id];
        return;
      }
      history := history.(input := history.input + [event]);
      task := if skippedEvents > 0 then Flushing(event) else Sending(event);
      var result;
      result, rest, trace := ForwardEvent(event, rest, start, trace);
      if result == StreamClosed {
        eventStreamEnabled := false;
      }
    }
  }
}

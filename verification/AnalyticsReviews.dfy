/** Approval reviews: the figures on a tool item event are an exact fold of the reviews since the item was
    last reported, and every registered approval request is settled at most once. */
module AnalyticsReviews {
  import opened Options
  import opened AnalyticsModel
  import AnalyticsItems
  import AnalyticsThreads

  // ---------------------------------------------------------------------------------------------
  // Approval requests
  // ---------------------------------------------------------------------------------------------

  /** The fact asks for an approval under this id, at a valid time. */
  predicate Asks(f: Fact, id: RequestId) {
    f.ApprovalRequested? && f.startedAt >= 0 && f.request == id
  }

  /** The fact answers or aborts the approval under this id. */
  predicate Answers(f: Fact, id: RequestId) {
    (f.CommandAnswered? || f.FileChangeAnswered? || f.PermissionsAnswered? || f.RequestAborted?) && f.request == id
  }

  /** Where the approval now pending under an id was asked for, from the facts alone. */
  function PendingSince(facts: seq<Fact>, id: RequestId): Option<nat> {
    if facts == [] then None
    else
      var n := |facts| - 1;
      if Asks(facts[n], id) then Some(n)
      else if Answers(facts[n], id) then None
      else PendingSince(facts[..n], id)
  }

  lemma {:induction false} PendingSinceBounds(facts: seq<Fact>, id: RequestId)
    ensures var p := PendingSince(facts, id); p.Some? ==>
      && p.value < |facts| && Asks(facts[p.value], id)
      && forall q :: p.value < q < |facts| ==> !Answers(facts[q], id) && !Asks(facts[q], id)
  {
    if facts != [] {
      PendingSinceBounds(facts[..|facts| - 1], id);
    }
  }

  /** The review says what the request asked for. */
  ghost predicate Describes(r: PendingReview, f: Fact)
    requires f.ApprovalRequested?
  {
    && r.thread == f.thread && r.turn == f.turn && r.item == Some(f.itemId) && r.startedAt == f.startedAt
    && match f.approval
       case CommandApproval(context, amendments, permissions) =>
         && r.subject == (if context then NetworkSubject else CommandSubject)
         && r.morePermissions == permissions.Some?
         && r.network == (context || amendments || permissions == Some(true))
       case FileChangeApproval(grantRoot) =>
         r.subject == FileChangeSubject && r.morePermissions == grantRoot && !r.network
       case PermissionsApproval(network, fileSystem) =>
         r.subject == PermissionsSubject && r.morePermissions == (network || fileSystem) && r.network == network
  }

  lemma ReviewsAfter(s: State, f: Fact, id: RequestId)
    ensures if Asks(f, id) then id in Next(s, f).reviews && Describes(Next(s, f).reviews[id], f)
            else if Answers(f, id) then id !in Next(s, f).reviews
            else && (id in Next(s, f).reviews <==> id in s.reviews)
                 && (id in s.reviews ==> Next(s, f).reviews[id] == s.reviews[id])
  {
    hide NextRequests, NextTurns, NextThreads, NextStarted, NextSummaries;
    assert Next(s, f).reviews == NextReviews(s, f);
  }

  /** The reducer's pending reviews are the approvals asked for and neither settled nor overwritten, with what was
      asked. */
  lemma {:induction false} PendingReviewsTracked(facts: seq<Fact>, id: RequestId)
    ensures var s, p := Run(EMPTY, facts), PendingSince(facts, id);
      && (id in s.reviews <==> p.Some?)
      && (p.Some? ==> p.value < |facts| && Asks(facts[p.value], id) && Describes(s.reviews[id], facts[p.value]))
  {
    if facts != [] {
      hide Next, Describes;
      var n := |facts| - 1;
      PendingReviewsTracked(facts[..n], id);
      ReviewsAfter(Run(EMPTY, facts[..n]), facts[n], id);
    }
  }

  /** The registration a fact settles. */
  function SettledBy(facts: seq<Fact>, k: nat): Option<nat>
    requires k < |facts|
  {
    if Settles(facts[k]) then PendingSince(facts[..k], facts[k].request) else None
  }

  /** No registration is settled twice. */
  lemma SettledOnce(facts: seq<Fact>, j: nat, k: nat)
    requires j < k < |facts| && SettledBy(facts, j).Some? && SettledBy(facts, k).Some?
    ensures SettledBy(facts, j) != SettledBy(facts, k)
  {
    PendingSinceBounds(facts[..j], facts[j].request);
    PendingSinceBounds(facts[..k], facts[k].request);
  }

  // ---------------------------------------------------------------------------------------------
  // Review figures of a tool item
  // ---------------------------------------------------------------------------------------------

  /** A concluded review: the tool item it counts for, if any, and what it adds to that item's figures. */
  datatype Review = Review(item: Option<ToolKey>, reviewer: Reviewer, outcome: ApprovalOutcome,
                           morePermissions: bool, network: bool)

  /** The outcome of a user's answer. */
  function Told(f: Fact): ApprovalOutcome
    requires Settles(f)
  {
    match f
    case CommandAnswered(_, d) =>
      if d.AcceptForSession? then UserApprovedForSession
      else if d.DeclineCommand? || d == ApplyNetworkPolicyAmendment(false) then UserDenied
      else if d.CancelCommand? then UserAborted
      else UserApproved
    case FileChangeAnswered(_, d) =>
      if d.AcceptChange? then UserApproved
      else if d.AcceptChangeForSession? then UserApprovedForSession
      else if d.DeclineChange? then UserDenied
      else UserAborted
    case PermissionsAnswered(_, nothingGranted, forSession) =>
      if nothingGranted then UserDenied else if forSession then UserApprovedForSession else UserApproved
    case RequestAborted(_) => UserAborted
  }

  /** The review a user's answer concludes: command reviews without a network context and file-change reviews count
      for the item they were asked for. */
  function UserReview(asked: Fact, f: Fact): Review
    requires asked.ApprovalRequested? && Settles(f)
  {
    var key := ToolKey(asked.thread, asked.turn, asked.itemId);
    match asked.approval
    case CommandApproval(context, amendments, permissions) =>
      Review(if context then None else Some(key), User, Told(f), permissions.Some?,
             context || amendments || permissions == Some(true))
    case FileChangeApproval(grantRoot) => Review(Some(key), User, Told(f), grantRoot, false)
    case PermissionsApproval(network, fileSystem) => Review(None, User, Told(f), network || fileSystem, network)
  }

  /** The review a guardian finished: commands, execve calls, patches and MCP calls count for their target. */
  function GuardianVerdict(f: Fact): Review
    requires f.GuardianReviewCompleted? && f.status.Some?
  {
    var counts := f.action.GuardCommand? || f.action.GuardExecve? || f.action.GuardPatch? || f.action.GuardMcp?;
    Review(if counts && f.target.Some? then Some(ToolKey(f.thread, f.turn, f.target.value)) else None,
           Guardian,
           if f.status.value == Approved then GuardianApproved
           else if f.status.value == Denied then GuardianDenied
           else GuardianAborted,
           f.action.GuardPatch? || f.action.GuardNetwork?
           || (f.action.GuardPermissions? && (f.action.networkEnabled || f.action.fileSystem)),
           f.action.GuardNetwork? || (f.action.GuardPermissions? && f.action.networkEnabled))
  }

  /** The review a fact concludes after these facts. */
  function Concluded(facts: seq<Fact>, f: Fact): Option<Review> {
    if Settles(f) then
      var p := PendingSince(facts, f.request);
      if p.Some? && p.value < |facts| && facts[p.value].ApprovalRequested? then Some(UserReview(facts[p.value], f))
      else None
    else if f.GuardianReviewCompleted? && f.status.Some? && f.startedAt >= 0 && f.completedAt >= 0 then
      Some(GuardianVerdict(f))
    else None
  }

  /** The reducer's verdict and the review say the same. */
  ghost predicate Same(v: Option<Verdict>, r: Option<Review>) {
    && (v.Some? <==> r.Some?)
    && (v.Some? ==>
          && SummaryKey(v.value.review) == r.value.item && v.value.reviewer == r.value.reviewer
          && FinalOutcome(v.value) == r.value.outcome && v.value.review.morePermissions == r.value.morePermissions
          && v.value.review.network == r.value.network)
  }

  lemma UserSame(review: PendingReview, asked: Fact, f: Fact)
    requires asked.ApprovalRequested? && Settles(f) && Describes(review, asked)
    ensures Same(Some(Verdict(review, User, UserResult(f).0, UserResult(f).1)), Some(UserReview(asked, f)))
  {
  }

  lemma GuardianSame(s: State, f: Fact)
    requires f.GuardianReviewCompleted? && f.status.Some? && f.startedAt >= 0 && f.completedAt >= 0
    ensures Same(Concludes(s, f), Some(GuardianVerdict(f)))
  {
  }

  /** The reducer concludes exactly the reviews the facts tell. */
  lemma ConcludesExactly(facts: seq<Fact>, f: Fact)
    ensures Same(Concludes(Run(EMPTY, facts), f), Concluded(facts, f))
  {
    var s := Run(EMPTY, facts);
    if Settles(f) {
      PendingReviewsTracked(facts, f.request);
      hide Run, Same, Describes, UserReview, UserResult;
      if f.request in s.reviews {
        UserSame(s.reviews[f.request], facts[PendingSince(facts, f.request).value], f);
      } else {
        SameNothing();
      }
    } else if f.GuardianReviewCompleted? && f.status.Some? && f.startedAt >= 0 && f.completedAt >= 0 {
      hide Run, Same;
      GuardianSame(s, f);
    } else {
      hide Run;
    }
  }

  lemma SameNothing()
    ensures Same(None, None)
  {
  }

  /** The reviews of one tool item that the run concluded since a completion last used up its figures. */
  function ReviewsSince(facts: seq<Fact>, key: ToolKey): seq<Review> {
    if facts == [] then []
    else
      var before, f := facts[..|facts| - 1], facts[|facts| - 1];
      if AnalyticsItems.UsesUp(before, f, key) then []
      else
        var r := Concluded(before, f);
        ReviewsSince(before, key) + if r.Some? && r.value.item == Some(key) then [r.value] else []
  }

  function CountBy(reviews: seq<Review>, reviewer: Reviewer): nat {
    if reviews == [] then 0
    else CountBy(reviews[..|reviews| - 1], reviewer) + if reviews[|reviews| - 1].reviewer == reviewer then 1 else 0
  }

  /** The figures a list of reviews stands for. */
  ghost predicate Figures(r: ReviewSummary, reviews: seq<Review>) {
    && r.count == |reviews|
    && r.guardian == CountBy(reviews, Guardian)
    && r.user == CountBy(reviews, User)
    && r.outcome == (if reviews == [] then None else Some(reviews[|reviews| - 1].outcome))
    && (r.morePermissions <==> exists i :: 0 <= i < |reviews| && reviews[i].morePermissions)
    && (r.network <==> exists i :: 0 <= i < |reviews| && reviews[i].network)
  }

  lemma {:induction false} GuardianPlusUser(reviews: seq<Review>)
    ensures CountBy(reviews, Guardian) + CountBy(reviews, User) == |reviews|
  {
    if reviews != [] {
      GuardianPlusUser(reviews[..|reviews| - 1]);
    }
  }

  lemma RecordKeepsFigures(r: ReviewSummary, reviews: seq<Review>, v: Verdict, w: Review)
    requires Figures(r, reviews) && Same(Some(v), Some(w))
    ensures Figures(RecordReview(r, v), reviews + [w])
  {
    hide FinalOutcome, SummaryKey;
    var more := reviews + [w];
    assert more[..|reviews|] == reviews && more[|reviews|] == w;
    assert forall i :: 0 <= i < |reviews| ==> more[i] == reviews[i];
  }

  lemma SummaryAfter(s: State, f: Fact, key: ToolKey)
    ensures SummaryOf(Next(s, f), key) ==
      if Consumes(s, f) == Some(key) then NO_REVIEWS
      else if Concludes(s, f).Some? && SummaryKey(Concludes(s, f).value.review) == Some(key) then
        RecordReview(SummaryOf(s, key), Concludes(s, f).value)
      else SummaryOf(s, key)
  {
    assert Consumes(s, f).None? || Concludes(s, f).None?;
    hide Consumes, Concludes, RecordReview;
    assert Next(s, f).summaries == NextSummaries(s, f);
  }

  /** The summary the reducer keeps for an item is the fold of the reviews the facts tell. */
  lemma {:induction false} SummariesAreFigures(facts: seq<Fact>, key: ToolKey)
    ensures Figures(SummaryOf(Run(EMPTY, facts), key), ReviewsSince(facts, key))
  {
    if facts != [] {
      hide Next, Consumes, Concludes, Concluded, RecordReview, FinalOutcome, SummaryKey, AnalyticsItems.UsesUp;
      var before, f := facts[..|facts| - 1], facts[|facts| - 1];
      var s, r := Run(EMPTY, before), Concluded(before, f);
      SummariesAreFigures(before, key);
      SummaryAfter(s, f, key);
      AnalyticsItems.ConsumesExactly(before, f, key);
      ConcludesExactly(before, f);
      FiguresAfter(SummaryOf(s, key), ReviewsSince(before, key), Concludes(s, f), r, key);
    }
  }

  lemma FiguresAfter(summary: ReviewSummary, reviews: seq<Review>, v: Option<Verdict>, r: Option<Review>, key: ToolKey)
    requires Figures(summary, reviews) && Same(v, r)
    ensures v.Some? && SummaryKey(v.value.review) == Some(key) <==> r.Some? && r.value.item == Some(key)
    ensures if r.Some? && r.value.item == Some(key) then Figures(RecordReview(summary, v.value), reviews + [r.value])
            else Figures(summary, reviews + [])
    ensures Figures(NO_REVIEWS, [])
  {
    hide FinalOutcome, SummaryKey;
    assert reviews + [] == reviews;
    if v.Some? {
      RecordKeepsFigures(summary, reviews, v.value, r.value);
    }
  }

  /** Every tool item event carries the fold of all command, file-change and MCP reviews of exactly its
      thread, turn and item since that item was last used: counts, last outcome, requested flags. */
  lemma ToolEventFigures(facts: seq<Fact>, f: Fact, i: nat)
    requires i < |Emitted(Run(EMPTY, facts), f)| && Emitted(Run(EMPTY, facts), f)[i].ToolItemEvent?
    ensures var e := Emitted(Run(EMPTY, facts), f)[i];
      && Figures(e.review, ReviewsSince(facts, e.key))
      && e.review.count == e.review.guardian + e.review.user
      && ReviewsSince(facts + [f], e.key) == []
  {
    hide Run, Emitted, AnalyticsItems.UsesUp, Concluded, SummaryOf;
    AnalyticsItems.ToolEventsExactly(facts, f);
    var key := Emitted(Run(EMPTY, facts), f)[i].key;
    SummariesAreFigures(facts, key);
    GuardianPlusUser(ReviewsSince(facts, key));
    assert (facts + [f])[..|facts|] == facts;
  }

  // ---------------------------------------------------------------------------------------------
  // Review events
  // ---------------------------------------------------------------------------------------------

  /** What the user's answer decides. */
  ghost predicate Decides(f: Fact, v: Verdict)
    requires Settles(f)
  {
    && v.reviewer == User
    && (v.status == Approved <==> Told(f) == UserApproved || Told(f) == UserApprovedForSession)
    && (v.status == Denied <==> Told(f) == UserDenied)
    && (v.status == Aborted <==> Told(f) == UserAborted)
    && (v.resolution == SessionApproval <==> Told(f) == UserApprovedForSession)
    && (v.resolution == ExecPolicyAmendment <==> f.CommandAnswered? && f.decision.AcceptWithExecpolicyAmendment?)
    && (v.resolution == NetworkPolicyAmendment <==> f.CommandAnswered? && f.decision.ApplyNetworkPolicyAmendment?)
  }

  lemma ResultDecides(review: PendingReview, f: Fact)
    requires Settles(f)
    ensures Decides(f, Verdict(review, User, UserResult(f).0, UserResult(f).1))
  {
  }

  /** Every review event by the user settles a registered approval, reports that very approval and what the answer
      decided, and is the only event of its fact; so one registration yields at most one user review event. */
  lemma UserReviewEvents(facts: seq<Fact>, k: nat, i: nat)
    requires k < |facts|
    requires var out := Emitted(Run(EMPTY, facts[..k]), facts[k]);
      i < |out| && out[i].ReviewEvent? && out[i].verdict.reviewer == User
    ensures var out := Emitted(Run(EMPTY, facts[..k]), facts[k]);
      && |out| == 1 && Settles(facts[k]) && Decides(facts[k], out[i].verdict)
      && SettledBy(facts, k).Some? && SettledBy(facts, k).value < k
      && facts[SettledBy(facts, k).value].ApprovalRequested?
      && Describes(out[i].verdict.review, facts[SettledBy(facts, k).value])
  {
    var s, f := Run(EMPTY, facts[..k]), facts[k];
    OnlyVerdictsEmitReviews(s, f, i);
    PendingReviewsTracked(facts[..k], f.request);
    hide Run, Emitted, Describes, Decides, UserResult;
    ResultDecides(s.reviews[f.request], f);
  }

  lemma SettlingEmits(s: State, f: Fact)
    requires Settles(f) && f.request in s.reviews
    ensures |Emitted(s, f)| == if ContextOf(s, s.reviews[f.request].thread).Context? then 1 else 0
  {
    hide ContextOf, UserResult;
  }

  /** A settled approval is reported exactly if its thread has a connection. */
  lemma SettledIsReported(facts: seq<Fact>, k: nat)
    requires k < |facts| && SettledBy(facts, k).Some?
    ensures var s, p := Run(EMPTY, facts[..k]), SettledBy(facts, k).value;
      && p < k && facts[p].ApprovalRequested?
      && |Emitted(s, facts[k])| ==
           if facts[p].thread in s.threads && s.threads[facts[p].thread].connection.Some? then 1 else 0
  {
    hide Run, ContextOf, Emitted;
    var s, f := Run(EMPTY, facts[..k]), facts[k];
    PendingReviewsTracked(facts[..k], f.request);
    AnalyticsThreads.OnlyMissingConnections(facts[..k], s.reviews[f.request].thread);
    SettlingEmits(s, f);
  }

  /** A finished guardian review is reported exactly if its thread has a connection, with its status. */
  lemma GuardianIsReported(facts: seq<Fact>, f: Fact)
    requires f.GuardianReviewCompleted? && f.status.Some? && f.startedAt >= 0 && f.completedAt >= 0
    ensures var s, out := Run(EMPTY, facts), Emitted(Run(EMPTY, facts), f);
      if f.thread in s.threads && s.threads[f.thread].connection.Some? then
        && |out| == 1 && out[0].ReviewEvent?
        && var v := out[0].verdict;
           && v.reviewer == Guardian && v.status == f.status.value && v.resolution == NoResolution
           && v.review.thread == f.thread && v.review.turn == f.turn && v.review.item == f.target
           && v.review.subject == (match f.action
                                   case GuardCommand => CommandSubject
                                   case GuardExecve => CommandSubject
                                   case GuardPatch => FileChangeSubject
                                   case GuardNetwork => NetworkSubject
                                   case GuardPermissions(_, _) => PermissionsSubject
                                   case GuardMcp => McpSubject)
      else out == []
  {
    AnalyticsThreads.OnlyMissingConnections(facts, f.thread);
    hide Run, ContextOf;
  }

  /** The run emits a user review event at this position. */
  ghost predicate ReviewedAt(facts: seq<Fact>, k: nat)
    requires k < |facts|
  {
    exists e :: e in Emitted(Run(EMPTY, facts[..k]), facts[k]) && e.ReviewEvent? && e.verdict.reviewer == User
  }

  /** Two user review events stem from two registrations: no mix of answers and aborts reports one twice. */
  lemma OneReviewPerRegistration(facts: seq<Fact>, j: nat, k: nat)
    requires j < k < |facts| && ReviewedAt(facts, j) && ReviewedAt(facts, k)
    ensures SettledBy(facts, j).Some? && SettledBy(facts, k).Some? && SettledBy(facts, j) != SettledBy(facts, k)
  {
    hide ReviewedAt, Run;
    ReviewedSettles(facts, j);
    ReviewedSettles(facts, k);
    SettledOnce(facts, j, k);
  }

  lemma ReviewedSettles(facts: seq<Fact>, k: nat)
    requires k < |facts| && ReviewedAt(facts, k)
    ensures SettledBy(facts, k).Some?
  {
    hide Run, Emitted, PendingSince, Describes, Decides;
    var out := Emitted(Run(EMPTY, facts[..k]), facts[k]);
    var e :| e in out && e.ReviewEvent? && e.verdict.reviewer == User;
    var i :| 0 <= i < |out| && out[i] == e;
    UserReviewEvents(facts, k, i);
  }

  lemma OnlyVerdictsEmitReviews(s: State, f: Fact, i: nat)
    requires i < |Emitted(s, f)| && Emitted(s, f)[i].ReviewEvent?
    ensures |Emitted(s, f)| == 1 && Concludes(s, f) == Some(Emitted(s, f)[i].verdict)
    ensures Emitted(s, f)[i].verdict.reviewer == User ==> Settles(f) && f.request in s.reviews
  {
    hide ContextOf, Ready, Touched, CompletesTool, ThreadKnown, UserResult;
    if f.Stateless? {
      NamedAreOther(f.events);
    }
  }

  // ---------------------------------------------------------------------------------------------
  // Conservation
  // ---------------------------------------------------------------------------------------------

  function Registered(facts: seq<Fact>): nat {
    if facts == [] then 0
    else
      var f := facts[|facts| - 1];
      Registered(facts[..|facts| - 1]) + if f.ApprovalRequested? && f.startedAt >= 0 then 1 else 0
  }

  function Resolved(facts: seq<Fact>): nat {
    if facts == [] then 0
    else
      var n := |facts| - 1;
      Resolved(facts[..n]) + if SettledBy(facts, n).Some? then 1 else 0
  }

  function Overwritten(facts: seq<Fact>): nat {
    if facts == [] then 0
    else
      var n := |facts| - 1;
      var f := facts[n];
      Overwritten(facts[..n]) +
      if f.ApprovalRequested? && f.startedAt >= 0 && PendingSince(facts[..n], f.request).Some? then 1 else 0
  }

  lemma SizeWith<K, V>(m: map<K, V>, k: K, v: V)
    ensures |m[k := v]| == |m| + if k in m then 0 else 1
  {
    assert m[k := v].Keys == m.Keys + {k};
  }

  lemma SizeWithout<K, V>(m: map<K, V>, k: K)
    ensures |m - {k}| == |m| - if k in m then 1 else 0
  {
    assert (m - {k}).Keys == m.Keys - {k};
  }

  lemma ReviewsCounted(s: State, f: Fact)
    ensures |NextReviews(s, f)| == |s.reviews|
      + (if f.ApprovalRequested? && f.startedAt >= 0 && f.request !in s.reviews then 1 else 0)
      - (if Settles(f) && f.request in s.reviews then 1 else 0)
  {
    if f.ApprovalRequested? && f.startedAt >= 0 {
      SizeWith(s.reviews, f.request, Registers(f).value);
    } else if Settles(f) {
      SizeWithout(s.reviews, f.request);
    }
  }

  /** Registered approvals are pending, resolved or overwritten by a reused id. */
  lemma {:induction false} ApprovalsConserved(facts: seq<Fact>)
    ensures Registered(facts) == |Run(EMPTY, facts).reviews| + Resolved(facts) + Overwritten(facts)
  {
    if facts != [] {
      hide PendingSince;
      var n := |facts| - 1;
      var s, f := Run(EMPTY, facts[..n]), facts[n];
      ApprovalsConserved(facts[..n]);
      assert Run(EMPTY, facts).reviews == NextReviews(s, f);
      ReviewsCounted(s, f);
      if f.ApprovalRequested? || Settles(f) {
        PendingReviewsTracked(facts[..n], f.request);
      }
      hide Next, NextReviews, Describes;
    }
  }
}

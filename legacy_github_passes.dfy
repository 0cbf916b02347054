// The older sequential collection (wellcode_cli/github/github_metrics.py):
// process_repository walks a repository's pull requests, keeps the latest
// in-window activity as the repository's last update and hands each pull
// request to process_pr, which applies its events to the repository, the
// users and the organisation.
//
// As written, process_pr calls update_timestamp with an argument, which the
// older RepositoryMetrics does not take; the TypeError reaches
// process_repository's handler before anything is recorded. The model keeps
// that behaviour (RepositoryAsWritten) and, beside it, the evidently intended
// process_pr (ProcessPr) with the timestamp semantics of the newer records.

module LegacyGithubPasses {
  import opened Common
  import opened GithubData
  import opened GithubAccumulators
  import opened LegacyGithubOrg

  /** start <= created <= end, both ends included. */
  predicate InWindow(pr: PullRequest, start: int, end: int)
  {
    start <= pr.createdAt <= end
  }

  function Max(a: int, b: int): int
  {
    if a >= b then a else b
  }

  // ---------------------------------------------------------------- process_repository as written

  /**
   * The last-update step of process_repository for one pull request: an
   * in-window creation moves it forward, and so does a merge that is later
   * still and not after the end of the window.
   */
  function LastStep(last: int, pr: PullRequest, start: int, end: int): int
  {
    if !InWindow(pr, start, end) then last
    else
      var l := Max(last, pr.createdAt);
      if Merged(pr) && pr.mergedAt.value > l && pr.mergedAt.value <= end then pr.mergedAt.value else l
  }

  function LastOf(last: int, pulls: seq<PullRequest>, start: int, end: int): int
  {
    if pulls == [] then last else LastStep(LastOf(last, pulls[..|pulls| - 1], start, end), pulls[|pulls| - 1], start, end)
  }

  /** The instants that count as activity of a pull request: its in-window creation, and its merge up to `end`. */
  predicate Activity(pr: PullRequest, t: int, start: int, end: int)
  {
    InWindow(pr, start, end) && (t == pr.createdAt || (Merged(pr) && t == pr.mergedAt.value && t <= end))
  }

  /**
   * The last update is the latest activity of any listed pull request, or
   * the initial value when there is none that is later: it never decreases,
   * bounds every activity, and is the initial value or one of them.
   */
  lemma {:induction false} LastOfIsLatest(last: int, pulls: seq<PullRequest>, start: int, end: int)
    ensures var l := LastOf(last, pulls, start, end);
      l >= last
      && (forall i, t :: 0 <= i < |pulls| && Activity(pulls[i], t, start, end) ==> t <= l)
      && (l == last || exists i :: 0 <= i < |pulls| && Activity(pulls[i], l, start, end))
    decreases |pulls|
  {
    if pulls != [] {
      var init := pulls[..|pulls| - 1];
      var pr := pulls[|pulls| - 1];
      LastOfIsLatest(last, init, start, end);
      var l0 := LastOf(last, init, start, end);
      var l := LastOf(last, pulls, start, end);
      assert l == LastStep(l0, pr, start, end);
      forall i, t | 0 <= i < |pulls| && Activity(pulls[i], t, start, end) ensures t <= l {
        if i < |init| {
          assert pulls[i] == init[i];
        }
      }
      if l != last && l != l0 {
        assert Activity(pulls[|pulls| - 1], l, start, end);
      } else if l != last {
        var i :| 0 <= i < |init| && Activity(init[i], l, start, end);
        assert pulls[i] == init[i];
      }
    }
  }

  /** Pull requests created outside the window change nothing. */
  lemma OutOfWindowSkipped(last: int, pulls: seq<PullRequest>, pr: PullRequest, start: int, end: int)
    requires !InWindow(pr, start, end)
    ensures LastOf(last, pulls + [pr], start, end) == LastOf(last, pulls, start, end)
  {
    assert (pulls + [pr])[..|pulls|] == pulls;
  }

  /** What process_pr does when it is reached: the TypeError comes before any update (None). */
  function ProcessPrAsWritten(o: Org, pr: PullRequest, repo: string, now: int): (r: Option<Org>)
    requires repo in o.repositories
  {
    match CallUpdateTimestamp(o.repositories[repo], [pr.createdAt], now)
    case None => None
    case Some(_) => Some(ProcessPr(o, pr, repo, now))
  }

  /** Every call of the as-written process_pr raises. */
  lemma AsWrittenRaises(o: Org, pr: PullRequest, repo: string, now: int)
    requires repo in o.repositories
    ensures ProcessPrAsWritten(o, pr, repo, now).None?
  {
  }

  /** The repository record after one listed pull request; a raised error leaves the rest as it was. */
  function AsWrittenStep(o: Org, pr: PullRequest, repo: string, start: int, end: int, now: int): Org
    requires repo in o.repositories
  {
    if !InWindow(pr, start, end) then o
    else
      var r := o.repositories[repo];
      var o1 := o.(repositories := o.repositories[repo := r.(lastUpdated := LastStep(r.lastUpdated, pr, start, end))]);
      match ProcessPrAsWritten(o1, pr, repo, now)
      case None => o1
      case Some(o2) => o2
  }

  /** process_repository as written, on a record created or found and then reset to `start`. */
  function RepositoryAsWritten(o: Org, name: string, defaultBranch: string, pulls: seq<PullRequest>,
                               start: int, end: int, now: int): Org
  {
    var o1 := WithRepository(o, name, defaultBranch, now);
    var o2 := o1.(repositories := o1.repositories[name := o1.repositories[name].(lastUpdated := start)]);
    AsWrittenFrom(o2, name, pulls, start, end, now)
  }

  function AsWrittenFrom(o: Org, repo: string, pulls: seq<PullRequest>, start: int, end: int, now: int): (r: Org)
    requires repo in o.repositories
    ensures repo in r.repositories
  {
    if pulls == [] then o
    else AsWrittenStep(AsWrittenFrom(o, repo, pulls[..|pulls| - 1], start, end, now), pulls[|pulls| - 1], repo, start, end, now)
  }

  /** As written, the pull requests only ever move the repository's last update. */
  lemma {:induction false} AsWrittenOnlyMovesLast(o: Org, repo: string, pulls: seq<PullRequest>, start: int, end: int, now: int)
    requires repo in o.repositories
    ensures var r := AsWrittenFrom(o, repo, pulls, start, end, now);
      r == o.(repositories := o.repositories[repo := o.repositories[repo].(lastUpdated := LastOf(o.repositories[repo].lastUpdated, pulls, start, end))])
    decreases |pulls|
  {
    if pulls != [] {
      var init := pulls[..|pulls| - 1];
      AsWrittenOnlyMovesLast(o, repo, init, start, end, now);
      AsWrittenRaises(AsWrittenFrom(o, repo, init, start, end, now), pulls[|pulls| - 1], repo, now);
    }
  }

  /**
   * The as-written process_repository: no pull request is ever counted, and
   * the last update ends as the latest in-window activity, never before `start`.
   */
  lemma RepositoryAsWrittenEffect(o: Org, name: string, defaultBranch: string, pulls: seq<PullRequest>,
                                  start: int, end: int, now: int)
    ensures var r := RepositoryAsWritten(o, name, defaultBranch, pulls, start, end, now);
      var before := WithRepository(o, name, defaultBranch, now).repositories[name];
      r.repositories[name] == before.(lastUpdated := LastOf(start, pulls, start, end))
      && r.users == o.users && r.metrics == o.metrics
      && LastOf(start, pulls, start, end) >= start
  {
    var o1 := WithRepository(o, name, defaultBranch, now);
    var o2 := o1.(repositories := o1.repositories[name := o1.repositories[name].(lastUpdated := start)]);
    AsWrittenOnlyMovesLast(o2, name, pulls, start, end, now);
    LastOfIsLatest(start, pulls, start, end);
  }

  /** Moving one repository's last update keeps the relations between the records. */
  lemma MoveLastKeeps(o: Org, name: string, v: int)
    requires OrgOk(o) && name in o.repositories
    ensures OrgOk(o.(repositories := o.repositories[name := o.repositories[name].(lastUpdated := v)]))
  {
    var r := o.(repositories := o.repositories[name := o.repositories[name].(lastUpdated := v)]);
    assert r.repositories.Keys == o.repositories.Keys;
  }

  /** The class form of process_repository as written: one loop over the listed pull requests. */
  method ProcessRepositoryAsWritten(org: LegacyOrganizationMetrics, name: string, defaultBranch: string,
                                    pulls: seq<PullRequest>, start: int, end: int, now: int)
    requires org.Valid()
    modifies org`repositories, org`order
    ensures org.Valid()
    ensures org.State() == RepositoryAsWritten(old(org.State()), name, defaultBranch, pulls, start, end, now)
  {
    org.GetOrCreateRepository(name, defaultBranch, now);
    org.repositories := org.repositories[name := org.repositories[name].(lastUpdated := start)];
    ghost var o2 := org.State();
    ghost var base := org.repositories;
    var i := 0;
    while i < |pulls|
      invariant 0 <= i <= |pulls|
      invariant name in base && name in org.repositories
      invariant org.repositories == base[name := org.repositories[name]]
      invariant org.repositories[name] == base[name].(lastUpdated := LastOf(start, pulls[..i], start, end))
      invariant org.order == o2.order
    {
      LastNext(start, pulls, i, start, end);
      ghost var before := org.repositories;
      StepLast(org, name, pulls[i], start, end);
      UpdateTwice(base, name, before[name], org.repositories[name]);
      i := i + 1;
    }
    assert pulls[..i] == pulls;
    AsWrittenClose(old(org.State()), name, defaultBranch, pulls, start, end, now, org.State());
  }

  /** The record the loop leaves is the value of process_repository as written, and keeps the relations. */
  lemma AsWrittenClose(o: Org, name: string, defaultBranch: string, pulls: seq<PullRequest>,
                       start: int, end: int, now: int, fin: Org)
    requires OrgOk(o)
    requires var o1 := WithRepository(o, name, defaultBranch, now);
      var o2 := o1.(repositories := o1.repositories[name := o1.repositories[name].(lastUpdated := start)]);
      fin == o2.(repositories := o2.repositories[name := o2.repositories[name].(lastUpdated := LastOf(start, pulls, start, end))])
    ensures OrgOk(fin)
    ensures fin == RepositoryAsWritten(o, name, defaultBranch, pulls, start, end, now)
  {
    var o1 := WithRepository(o, name, defaultBranch, now);
    var o2 := o1.(repositories := o1.repositories[name := o1.repositories[name].(lastUpdated := start)]);
    WithRepositoryKeeps(o, name, defaultBranch, now);
    MoveLastKeeps(o1, name, start);
    MoveLastKeeps(o2, name, LastOf(start, pulls, start, end));
    AsWrittenOnlyMovesLast(o2, name, pulls, start, end, now);
    UpdateTwice(o1.repositories, name, o2.repositories[name], fin.repositories[name]);
  }

  /** One pull request of the loop: the window test and the two comparisons. */
  method StepLast(org: LegacyOrganizationMetrics, name: string, pr: PullRequest, start: int, end: int)
    requires name in org.repositories
    modifies org`repositories
    ensures org.repositories == old(org.repositories)[name := old(org.repositories)[name].(
      lastUpdated := LastStep(old(org.repositories)[name].lastUpdated, pr, start, end))]
  {
    if start <= pr.createdAt <= end {
      var r := org.repositories[name];
      var last := r.lastUpdated;
      if pr.createdAt > last {
        last := pr.createdAt;
      }
      if pr.mergedAt.Some? && pr.mergedAt.value > last && pr.mergedAt.value <= end {
        last := pr.mergedAt.value;
      }
      org.repositories := org.repositories[name := r.(lastUpdated := last)];
    }
  }

  lemma LastNext(last: int, pulls: seq<PullRequest>, i: nat, start: int, end: int)
    requires i < |pulls|
    ensures LastOf(last, pulls[..i + 1], start, end) == LastStep(LastOf(last, pulls[..i], start, end), pulls[i], start, end)
  {
    assert pulls[..i + 1][..i] == pulls[..i];
  }

  lemma UpdateTwice<K, V>(m: map<K, V>, k: K, a: V, b: V)
    ensures m[k := a][k := b] == m[k := b]
  {
  }

  // ---------------------------------------------------------------- process_pr, corrected

  /** update_timestamp with one argument, as the call means it: the later instant, the current one for None. */
  function Touched(r: Repo, t: Option<int>, now: int): (u: Repo)
    ensures u == r.(lastUpdated := u.lastUpdated)
    ensures u.lastUpdated == Max(r.lastUpdated, if t.Some? then t.value else now)
  {
    var v := if t.Some? then t.value else now;
    if v > r.lastUpdated then r.(lastUpdated := v) else r
  }

  /** get_or_create_user(login) as process_pr calls it: someone new is recorded without a team. */
  function Person(users: map<string, User>, u: string): (r: map<string, User>)
    ensures u in r && r.Keys == users.Keys + {u}
  {
    if u in users then users else users[u := NewUser(u, "")]
  }

  /** A person's accumulators replaced, nothing else of theirs or anyone's touched. */
  function WithTallies(users: map<string, User>, u: string, m: Tallies): (r: map<string, User>)
    requires u in users
    ensures r.Keys == users.Keys
  {
    users[u := users[u].(metrics := m)]
  }

  /** On the organisation that is get_or_create_user with no team: the teams stay as they are. */
  lemma PersonIsWithUser(o: Org, u: string)
    ensures WithUser(o, u, "") == o.(users := Person(o.users, u))
  {
  }

  /** A person's team as recorded, "" for someone not yet recorded (a new record has no team). */
  function TeamOf(users: map<string, User>, u: string): string
  {
    if u in users then users[u].team else ""
  }

  // ---------------------------------------------------------------- the repository and organisation levels

  function GaveOne(t: ReviewTally): ReviewTally
  {
    t.(commentsGiven := t.commentsGiven + 1)
  }

  /** The comment loop's counter: one comment given per comment that has an author. */
  function CommentsGiven(t: ReviewTally, comments: seq<Comment>): ReviewTally
  {
    t.(commentsGiven := t.commentsGiven + CommentsWithUser(comments))
  }

  /** The review cycles of a pull request, recorded when there are any. */
  function Cycled(t: ReviewTally, n: nat): ReviewTally
  {
    if n > 0 then t.(cycles := t.cycles + [n]) else t
  }

  /** update_from_review for every review, in order. */
  function ReviewSteps(t: ReviewTally, reviews: seq<Review>, pr: PullRequest): ReviewTally
  {
    if reviews == [] then t else ReviewStep(ReviewSteps(t, reviews[..|reviews| - 1], pr), reviews[|reviews| - 1], pr)
  }

  /** The review accumulator of the repository, and of the organisation, after process_pr. */
  function ReviewLevel(t: ReviewTally, pr: PullRequest): ReviewTally
  {
    ReviewSteps(Cycled(CommentsGiven(t, pr.reviewComments + pr.issueComments), ChangesRequested(pr.reviews)), pr.reviews, pr)
  }

  function SelfOne(c: CollabTally): CollabTally
  {
    c.(selfMerges := c.selfMerges + 1)
  }

  /** The explicit team block: same team, cross team, or external when either team is missing. */
  function TeamBlock(c: CollabTally, authorTeam: string, reviewerTeam: string): (r: CollabTally)
    ensures ReviewTypes(r) == ReviewTypes(c) + 1
    ensures r.selfMerges == c.selfMerges && r.commentsPerPr == c.commentsPerPr && r.commentsByUser == c.commentsByUser
    ensures (r.team == c.team + 1) <==> authorTeam != "" && reviewerTeam != "" && authorTeam == reviewerTeam
    ensures (r.crossTeam == c.crossTeam + 1) <==> authorTeam != "" && reviewerTeam != "" && authorTeam != reviewerTeam
    ensures (r.external == c.external + 1) <==> authorTeam == "" || reviewerTeam == ""
  {
    if reviewerTeam != "" && authorTeam != "" then
      if reviewerTeam == authorTeam then c.(team := c.team + 1) else c.(crossTeam := c.crossTeam + 1)
    else c.(external := c.external + 1)
  }

  /** update_from_review of the collaboration accumulator and then the team block. */
  function ReviewKinds(c: CollabTally, rv: Review, pr: PullRequest, authorTeam: string, reviewerTeam: string): (r: CollabTally)
    ensures rv.user.Some? ==> ReviewTypes(r) == ReviewTypes(c) + 2
    ensures rv.user.None? ==> ReviewTypes(r) == ReviewTypes(c) + 1
  {
    TeamBlock(CollabReviewStep(c, rv, pr, authorTeam, reviewerTeam), authorTeam, reviewerTeam)
  }

  /** One review at the repository or organisation level: the self-merge when the author reviews, then the review's kinds. */
  function KindsStep(c: CollabTally, rv: Review, pr: PullRequest, users: map<string, User>): CollabTally
  {
    if rv.user.None? then c
    else
      var v := rv.user.value;
      ReviewKinds(if v == pr.author then SelfOne(c) else c, rv, pr, TeamOf(users, pr.author), TeamOf(users, v))
  }

  function KindsSteps(c: CollabTally, reviews: seq<Review>, pr: PullRequest, users: map<string, User>): CollabTally
  {
    if reviews == [] then c else KindsStep(KindsSteps(c, reviews[..|reviews| - 1], pr, users), reviews[|reviews| - 1], pr, users)
  }

  /** The collaboration accumulator of the repository, and of the organisation, after process_pr. */
  function CollabLevel(c: CollabTally, pr: PullRequest, users: map<string, User>): CollabTally
  {
    KindsSteps(CommentsStep(c, pr.reviewComments + pr.issueComments, pr.number), pr.reviews, pr, users)
  }

  /** The first commit of process_pr: the committer date of the last listed commit. */
  function FirstCommitDate(commits: seq<Commit>): (t: Option<int>)
    ensures t.Some? <==> commits != []
  {
    if commits == [] then None else Some(commits[|commits| - 1].committerDate)
  }

  /** The time accumulators of a merged pull request, and the cycle time when there is a first commit. */
  function MergeAt(t: TimeTally, pr: PullRequest, first: Option<int>): (r: TimeTally)
    requires Merged(pr)
    ensures |r.cycleTimes| == |t.cycleTimes| + (if first.Some? then 1 else 0)
  {
    var s := TimeStep(t, pr, first);
    if first.Some? then s.(cycleTimes := s.cycleTimes + [pr.mergedAt.value - first.value]) else s
  }

  function TimeLevel(t: TimeTally, pr: PullRequest): TimeTally
  {
    if Merged(pr) then MergeAt(t, pr, FirstCommitDate(pr.commits)) else t
  }

  // ---------------------------------------------------------------- review wait and response times

  /** Each review is submitted no earlier than the one before it. */
  predicate SortedBySubmission(s: seq<Review>)
  {
    forall i :: 0 < i < |s| ==> s[i - 1].submittedAt <= s[i].submittedAt
  }

  /** Inserts after every review submitted no later, so that equal instants keep their order. */
  function Insert(rv: Review, s: seq<Review>): (t: seq<Review>)
    requires SortedBySubmission(s)
    ensures SortedBySubmission(t)
    ensures multiset(t) == multiset(s) + multiset{rv}
    ensures |t| == |s| + 1
    ensures t[0] == rv || (s != [] && t[0] == s[0])
  {
    if s == [] then [rv]
    else if rv.submittedAt < s[0].submittedAt then [rv] + s
    else
      var rest := Insert(rv, s[1..]);
      assert s == [s[0]] + s[1..];
      var t := [s[0]] + rest;
      assert forall i :: 0 < i < |t| ==> t[i] == rest[i - 1];
      t
  }

  /** sorted(reviews, key=submitted_at), stable. */
  function SortBySubmission(s: seq<Review>): (t: seq<Review>)
    ensures SortedBySubmission(t)
    ensures multiset(t) == multiset(s)
    ensures |t| == |s|
  {
    if s == [] then []
    else
      assert s == s[..|s| - 1] + [s[|s| - 1]];
      Insert(s[|s| - 1], SortBySubmission(s[..|s| - 1]))
  }

  /** In a sorted sequence every review is submitted no earlier than the first. */
  lemma {:induction false} SortedAbove(t: seq<Review>, j: nat)
    requires SortedBySubmission(t) && j < |t|
    ensures t[0].submittedAt <= t[j].submittedAt
    decreases j
  {
    if j > 0 {
      SortedAbove(t, j - 1);
    }
  }

  /** In a sorted sequence every review is submitted no later than the last. */
  lemma {:induction false} SortedBelow(t: seq<Review>, j: nat)
    requires SortedBySubmission(t) && j < |t|
    ensures t[j].submittedAt <= t[|t| - 1].submittedAt
    decreases |t| - j
  {
    if j + 1 < |t| {
      SortedBelow(t, j + 1);
    }
  }

  /** The times between consecutive reviews. */
  function Gaps(t: seq<Review>): (g: seq<int>)
    ensures |g| == if |t| == 0 then 0 else |t| - 1
  {
    if |t| < 2 then [] else Gaps(t[..|t| - 1]) + [t[|t| - 1].submittedAt - t[|t| - 2].submittedAt]
  }

  /** The review response times of process_pr: the gaps of the reviews in submission order. */
  function ResponseTimes(reviews: seq<Review>): seq<int>
  {
    Gaps(SortBySubmission(reviews))
  }

  /** The gaps of a sorted sequence are non-negative and add up to its span. */
  lemma {:induction false} GapsOfSorted(t: seq<Review>)
    requires SortedBySubmission(t) && t != []
    ensures forall i :: 0 <= i < |Gaps(t)| ==> Gaps(t)[i] >= 0
    ensures Sum(Gaps(t)) == t[|t| - 1].submittedAt - t[0].submittedAt
    decreases |t|
  {
    if |t| >= 2 {
      var init := t[..|t| - 1];
      GapsOfSorted(init);
      SumAppend(Gaps(init), t[|t| - 1].submittedAt - t[|t| - 2].submittedAt);
    }
  }

  /** The first of the sorted reviews is the earliest submission. */
  lemma SortedFirst(reviews: seq<Review>)
    requires reviews != []
    ensures SortBySubmission(reviews)[0].submittedAt == FirstSubmission(reviews)
  {
    var t := SortBySubmission(reviews);
    assert t[0] in multiset(reviews);
    var k :| 0 <= k < |reviews| && reviews[k].submittedAt == FirstSubmission(reviews);
    assert reviews[k] in multiset(t);
    var j :| 0 <= j < |t| && t[j] == reviews[k];
    SortedAbove(t, j);
  }

  /** Every review of a pull request is submitted at most as late as the last of the sorted ones. */
  lemma SortedLast(reviews: seq<Review>, i: nat)
    requires i < |reviews|
    ensures reviews[i].submittedAt <= SortBySubmission(reviews)[|reviews| - 1].submittedAt
  {
    LastOfPermutation(SortBySubmission(reviews), reviews, i);
  }

  lemma LastOfPermutation(t: seq<Review>, reviews: seq<Review>, i: nat)
    requires SortedBySubmission(t) && multiset(t) == multiset(reviews) && i < |reviews|
    ensures t != [] && reviews[i].submittedAt <= t[|t| - 1].submittedAt
  {
    assert reviews[i] in multiset(t);
    var j :| 0 <= j < |t| && t[j] == reviews[i];
    SortedBelow(t, j);
  }

  /**
   * k reviews give k - 1 response times, none negative, adding up to the
   * time from the first to the last submission.
   */
  lemma ResponseTimesSpan(reviews: seq<Review>)
    requires reviews != []
    ensures |ResponseTimes(reviews)| == |reviews| - 1
    ensures forall i :: 0 <= i < |ResponseTimes(reviews)| ==> ResponseTimes(reviews)[i] >= 0
    ensures Sum(ResponseTimes(reviews)) + FirstSubmission(reviews)
      == SortBySubmission(reviews)[|reviews| - 1].submittedAt
    ensures forall i :: 0 <= i < |reviews| ==> FirstSubmission(reviews) + Sum(ResponseTimes(reviews)) >= reviews[i].submittedAt
  {
    var t := SortBySubmission(reviews);
    GapsOfSorted(t);
    SortedFirst(reviews);
    forall i | 0 <= i < |reviews| ensures FirstSubmission(reviews) + Sum(ResponseTimes(reviews)) >= reviews[i].submittedAt {
      SortedLast(reviews, i);
    }
  }

  /** The first-review wait and the response times join a bottleneck accumulator. */
  function AddWait(b: BottleneckTally, wait: int, gaps: seq<int>): BottleneckTally
  {
    b.(waitTimes := b.waitTimes + [wait], responseTimes := b.responseTimes + gaps)
  }

  /** update_from_pr of the bottleneck accumulator, then the wait and response times when there are reviews. */
  function Waits(b: BottleneckTally, pr: PullRequest, now: int): BottleneckTally
  {
    var b1 := BottleneckStep(b, pr, now);
    if pr.reviews == [] then b1 else AddWait(b1, FirstSubmission(pr.reviews) - pr.createdAt, ResponseTimes(pr.reviews))
  }

  /**
   * What process_pr applies alike to the repository's and to the
   * organisation's five accumulators. Each accumulator is touched only by its
   * own statements, so it is written as the statements that touch it, in
   * their order; `users` gives the teams the team block reads.
   */
  function LevelPr(m: Tallies, pr: PullRequest, users: map<string, User>, now: int): Tallies
  {
    Tallies(ReviewLevel(m.review, pr), CodeStep(m.code, pr), TimeLevel(m.time, pr),
            CollabLevel(m.collab, pr, users), Waits(m.bottleneck, pr, now))
  }

  /** The author's team when they have one. */
  function AuthorTeams(users: map<string, User>, author: string): set<string>
  {
    if TeamOf(users, author) != "" then {TeamOf(users, author)} else {}
  }

  /** The non-empty teams of the reviewers that have an account. */
  function ReviewerTeams(users: map<string, User>, reviews: seq<Review>): (s: set<string>)
    ensures "" !in s
  {
    if reviews == [] then {}
    else
      var rv := reviews[|reviews| - 1];
      var t := if rv.user.Some? then TeamOf(users, rv.user.value) else "";
      ReviewerTeams(users, reviews[..|reviews| - 1]) + (if t != "" then {t} else {})
  }

  /** The instant the closing update_timestamp is given: the merge, or the current instant for an open pull request. */
  function ClosedAt(pr: PullRequest, now: int): int
  {
    if Merged(pr) then pr.mergedAt.value else now
  }

  /** The repository's record after process_pr. */
  function RepoPr(a: Repo, pr: PullRequest, users: map<string, User>, now: int): Repo
  {
    a.(prsCreated := a.prsCreated + 1,
       prsMerged := a.prsMerged + (if Merged(pr) then 1 else 0),
       prsMergedToMain := a.prsMergedToMain + (if Merged(pr) && pr.baseRef == a.defaultBranch then 1 else 0),
       contributors := a.contributors + {pr.author},
       metrics := LevelPr(a.metrics, pr, users, now),
       teamsInvolved := a.teamsInvolved + AuthorTeams(users, pr.author) + ReviewerTeams(users, pr.reviews),
       lastUpdated := Touched(Touched(a, Some(pr.createdAt), now), pr.mergedAt, now).lastUpdated)
  }

  // ---------------------------------------------------------------- the people

  /** The author's record as process_pr first takes it: created (and merged), its code, the review comments it received. */
  function AuthorOpen(users: map<string, User>, pr: PullRequest): (r: map<string, User>)
    ensures pr.author in r && r.Keys == users.Keys + {pr.author}
  {
    var us := Person(users, pr.author);
    var u := us[pr.author];
    us[pr.author := u.(prsCreated := u.prsCreated + 1, prsMerged := u.prsMerged + (if Merged(pr) then 1 else 0),
        metrics := u.metrics.(code := CodeStep(u.metrics.code, pr),
          review := u.metrics.review.(commentsReceived := u.metrics.review.commentsReceived + |pr.reviewComments|)))]
  }

  /** One comment at its author's record, skipped without an author: a comment given and update_from_comments. */
  function CommentUser(users: map<string, User>, c: Comment, n: int): (r: map<string, User>)
    ensures users.Keys <= r.Keys
  {
    if c.user.None? then users
    else
      var us := Person(users, c.user.value);
      var m := us[c.user.value].metrics;
      WithTallies(us, c.user.value, m.(review := GaveOne(m.review), collab := CommentStep(m.collab, c, n)))
  }

  function CommentUsers(users: map<string, User>, comments: seq<Comment>, n: int): (r: map<string, User>)
    ensures users.Keys <= r.Keys
  {
    if comments == [] then users else CommentUser(CommentUsers(users, comments[..|comments| - 1], n), comments[|comments| - 1], n)
  }

  /** The author's review cycles. */
  function AuthorCycles(users: map<string, User>, pr: PullRequest): (r: map<string, User>)
    requires pr.author in users
    ensures r.Keys == users.Keys
  {
    var m := users[pr.author].metrics;
    WithTallies(users, pr.author, m.(review := Cycled(m.review, ChangesRequested(pr.reviews))))
  }

  /**
   * One review at the people's records, skipped without an author: the
   * reviewer's update_from_review, the author's self-merge when they review
   * their own pull request, then the reviewer's collaboration update and team
   * block with the teams as recorded.
   */
  function ReviewUser(users: map<string, User>, rv: Review, pr: PullRequest): (r: map<string, User>)
    requires pr.author in users
    ensures users.Keys <= r.Keys
  {
    if rv.user.None? then users
    else
      var v := rv.user.value;
      var u1 := Person(users, v);
      var u2 := WithTallies(u1, v, u1[v].metrics.(review := ReviewStep(u1[v].metrics.review, rv, pr)));
      var a := u2[pr.author].metrics;
      var u3 := if v == pr.author then WithTallies(u2, pr.author, a.(collab := SelfOne(a.collab))) else u2;
      var x := u3[v].metrics;
      WithTallies(u3, v, x.(collab := ReviewKinds(x.collab, rv, pr, u3[pr.author].team, u3[v].team)))
  }

  function ReviewUsers(users: map<string, User>, reviews: seq<Review>, pr: PullRequest): (r: map<string, User>)
    requires pr.author in users
    ensures users.Keys <= r.Keys
  {
    if reviews == [] then users else ReviewUser(ReviewUsers(users, reviews[..|reviews| - 1], pr), reviews[|reviews| - 1], pr)
  }

  /** The author's merge times and bottleneck samples. */
  function AuthorClose(users: map<string, User>, pr: PullRequest, now: int): (r: map<string, User>)
    requires pr.author in users
    ensures r.Keys == users.Keys
  {
    var m := users[pr.author].metrics;
    WithTallies(users, pr.author, m.(time := TimeLevel(m.time, pr), bottleneck := Waits(m.bottleneck, pr, now)))
  }

  /** The people's records after process_pr, updated in the source's order so that one person in several roles takes every update. */
  function UsersPr(users: map<string, User>, pr: PullRequest, now: int): map<string, User>
  {
    var u1 := AuthorOpen(users, pr);
    var u2 := CommentUsers(u1, pr.reviewComments + pr.issueComments, pr.number);
    var u3 := ReviewUsers(AuthorCycles(u2, pr), pr.reviews, pr);
    AuthorClose(u3, pr, now)
  }

  /** process_pr as evidently intended: the repository, the people and the organisation each take the pull request. */
  function ProcessPr(o: Org, pr: PullRequest, repo: string, now: int): Org
    requires repo in o.repositories
  {
    o.(repositories := o.repositories[repo := RepoPr(o.repositories[repo], pr, o.users, now)],
       users := UsersPr(o.users, pr, now),
       metrics := LevelPr(o.metrics, pr, o.users, now))
  }

  // ---------------------------------------------------------------- what the levels count

  /** The reviews that have an author. */
  function ReviewsWithUser(reviews: seq<Review>): (n: nat)
    ensures n <= |reviews|
  {
    if reviews == [] then 0
    else ReviewsWithUser(reviews[..|reviews| - 1]) + (if reviews[|reviews| - 1].user.Some? then 1 else 0)
  }

  /** The reviews that have an author and a body. */
  function BodiedReviews(reviews: seq<Review>): (n: nat)
    ensures n <= ReviewsWithUser(reviews)
  {
    if reviews == [] then 0
    else
      var rv := reviews[|reviews| - 1];
      BodiedReviews(reviews[..|reviews| - 1]) + (if rv.user.Some? && rv.body != "" then 1 else 0)
  }

  /** The reviews by the pull request's own author. */
  function SelfReviews(reviews: seq<Review>, author: string): (n: nat)
    ensures n <= ReviewsWithUser(reviews)
  {
    if reviews == [] then 0
    else SelfReviews(reviews[..|reviews| - 1], author) + (if reviews[|reviews| - 1].user == Some(author) then 1 else 0)
  }

  /** Every authored review is one review performed, and one comment given when it has a body; the cycles stay. */
  lemma {:induction false} ReviewStepsCounts(t: ReviewTally, reviews: seq<Review>, pr: PullRequest)
    ensures var r := ReviewSteps(t, reviews, pr);
      r.performed == t.performed + ReviewsWithUser(reviews)
      && r.commentsGiven == t.commentsGiven + BodiedReviews(reviews)
      && r.cycles == t.cycles && r.commentsReceived == t.commentsReceived
    decreases |reviews|
  {
    if reviews != [] {
      ReviewStepsCounts(t, reviews[..|reviews| - 1], pr);
    }
  }

  /**
   * A level's review accumulator: a comment given per authored comment and
   * per authored review with a body, a review performed per authored review,
   * and the review cycles when there are any.
   */
  lemma ReviewLevelCounts(t: ReviewTally, pr: PullRequest)
    ensures var r := ReviewLevel(t, pr); var n := ChangesRequested(pr.reviews);
      r.commentsGiven == t.commentsGiven + CommentsWithUser(pr.reviewComments + pr.issueComments) + BodiedReviews(pr.reviews)
      && r.performed == t.performed + ReviewsWithUser(pr.reviews)
      && r.cycles == (if n > 0 then t.cycles + [n] else t.cycles)
      && r.commentsReceived == t.commentsReceived
  {
    ReviewStepsCounts(Cycled(CommentsGiven(t, pr.reviewComments + pr.issueComments), ChangesRequested(pr.reviews)), pr.reviews, pr);
  }

  /** Comments do not count as reviews of any kind. */
  lemma {:induction false} CommentsStepTypes(c: CollabTally, comments: seq<Comment>, n: int)
    ensures ReviewTypes(CommentsStep(c, comments, n)) == ReviewTypes(c)
    decreases |comments|
  {
    if comments != [] {
      CommentsStepTypes(c, comments[..|comments| - 1], n);
    }
  }

  /**
   * The review kinds of a level: two per authored review (update_from_review
   * and the team block) and one more per self-review.
   */
  lemma {:induction false} KindsStepsTypes(c: CollabTally, reviews: seq<Review>, pr: PullRequest, users: map<string, User>)
    ensures ReviewTypes(KindsSteps(c, reviews, pr, users))
      == ReviewTypes(c) + 2 * ReviewsWithUser(reviews) + SelfReviews(reviews, pr.author)
    decreases |reviews|
  {
    if reviews != [] {
      var init := reviews[..|reviews| - 1];
      var rv := reviews[|reviews| - 1];
      KindsStepsTypes(c, init, pr, users);
      var mid := KindsSteps(c, init, pr, users);
      if rv.user.Some? {
        var c1 := if rv.user.value == pr.author then SelfOne(mid) else mid;
        assert ReviewTypes(c1) == ReviewTypes(mid) + (if rv.user == Some(pr.author) then 1 else 0);
      }
    }
  }

  lemma CollabLevelTypes(c: CollabTally, pr: PullRequest, users: map<string, User>)
    ensures ReviewTypes(CollabLevel(c, pr, users))
      == ReviewTypes(c) + 2 * ReviewsWithUser(pr.reviews) + SelfReviews(pr.reviews, pr.author)
  {
    CommentsStepTypes(c, pr.reviewComments + pr.issueComments, pr.number);
    KindsStepsTypes(CommentsStep(c, pr.reviewComments + pr.issueComments, pr.number), pr.reviews, pr, users);
  }

  /** The kinds only read the teams: records that give everyone the same team give the same kinds. */
  lemma {:induction false} KindsStepsTeams(c: CollabTally, reviews: seq<Review>, pr: PullRequest, a: map<string, User>, b: map<string, User>)
    requires forall x :: TeamOf(b, x) == TeamOf(a, x)
    ensures KindsSteps(c, reviews, pr, b) == KindsSteps(c, reviews, pr, a)
    decreases |reviews|
  {
    if reviews != [] {
      KindsStepsTeams(c, reviews[..|reviews| - 1], pr, a, b);
    }
  }

  lemma {:induction false} ReviewerTeamsSame(a: map<string, User>, b: map<string, User>, reviews: seq<Review>)
    requires forall x :: TeamOf(b, x) == TeamOf(a, x)
    ensures ReviewerTeams(b, reviews) == ReviewerTeams(a, reviews)
    decreases |reviews|
  {
    if reviews != [] {
      ReviewerTeamsSame(a, b, reviews[..|reviews| - 1]);
    }
  }

  // ---------------------------------------------------------------- what the people's records keep

  /** The people records grow; everyone keeps their login and team; newcomers have no team. */
  ghost predicate Known(a: map<string, User>, b: map<string, User>)
  {
    a.Keys <= b.Keys
    && (forall u :: u in a ==> b[u].team == a[u].team && b[u].username == a[u].username)
    && (forall u :: u in b && u !in a ==> b[u].team == "" && b[u].username == u)
  }

  /** Known, and the pull-request counters of everyone already present stay. */
  ghost predicate UsersExtend(a: map<string, User>, b: map<string, User>)
  {
    Known(a, b)
    && forall u :: u in a ==> b[u].prsCreated == a[u].prsCreated && b[u].prsMerged == a[u].prsMerged
  }

  lemma UsersExtendTrans(a: map<string, User>, b: map<string, User>, c: map<string, User>)
    requires UsersExtend(a, b) && UsersExtend(b, c)
    ensures UsersExtend(a, c)
  {
  }

  /** A person's team as recorded never changes, and someone new reads as having none. */
  lemma KnownTeams(a: map<string, User>, b: map<string, User>)
    requires Known(a, b)
    ensures forall x :: TeamOf(b, x) == TeamOf(a, x)
  {
  }

  lemma {:induction false} CommentUsersExtend(users: map<string, User>, comments: seq<Comment>, n: int)
    ensures UsersExtend(users, CommentUsers(users, comments, n))
    decreases |comments|
  {
    if comments != [] {
      var mid := CommentUsers(users, comments[..|comments| - 1], n);
      CommentUsersExtend(users, comments[..|comments| - 1], n);
      CommentUserExtends(mid, comments[|comments| - 1], n);
      UsersExtendTrans(users, mid, CommentUsers(users, comments, n));
    }
  }

  lemma PersonExtends(users: map<string, User>, u: string)
    ensures UsersExtend(users, Person(users, u))
  {
  }

  lemma WithTalliesExtends(users: map<string, User>, u: string, m: Tallies)
    requires u in users
    ensures UsersExtend(users, WithTallies(users, u, m))
  {
  }

  lemma CommentUserExtends(users: map<string, User>, c: Comment, n: int)
    ensures UsersExtend(users, CommentUser(users, c, n))
  {
    if c.user.Some? {
      var us := Person(users, c.user.value);
      var m := us[c.user.value].metrics;
      PersonExtends(users, c.user.value);
      WithTalliesExtends(us, c.user.value, m.(review := GaveOne(m.review), collab := CommentStep(m.collab, c, n)));
      UsersExtendTrans(users, us, CommentUser(users, c, n));
    }
  }

  lemma ReviewUserExtends(users: map<string, User>, rv: Review, pr: PullRequest)
    requires pr.author in users
    ensures UsersExtend(users, ReviewUser(users, rv, pr))
  {
    if rv.user.Some? {
      var v := rv.user.value;
      var u1 := Person(users, v);
      PersonExtends(users, v);
      var u2 := WithTallies(u1, v, u1[v].metrics.(review := ReviewStep(u1[v].metrics.review, rv, pr)));
      WithTalliesExtends(u1, v, u1[v].metrics.(review := ReviewStep(u1[v].metrics.review, rv, pr)));
      UsersExtendTrans(users, u1, u2);
      var a := u2[pr.author].metrics;
      var u3 := if v == pr.author then WithTallies(u2, pr.author, a.(collab := SelfOne(a.collab))) else u2;
      WithTalliesExtends(u2, pr.author, a.(collab := SelfOne(a.collab)));
      UsersExtendTrans(users, u2, u3);
      var x := u3[v].metrics;
      WithTalliesExtends(u3, v, x.(collab := ReviewKinds(x.collab, rv, pr, u3[pr.author].team, u3[v].team)));
      UsersExtendTrans(users, u3, ReviewUser(users, rv, pr));
    }
  }

  lemma {:induction false} ReviewUsersExtend(users: map<string, User>, reviews: seq<Review>, pr: PullRequest)
    requires pr.author in users
    ensures UsersExtend(users, ReviewUsers(users, reviews, pr))
    decreases |reviews|
  {
    if reviews != [] {
      var mid := ReviewUsers(users, reviews[..|reviews| - 1], pr);
      ReviewUsersExtend(users, reviews[..|reviews| - 1], pr);
      ReviewUserExtends(mid, reviews[|reviews| - 1], pr);
      UsersExtendTrans(users, mid, ReviewUsers(users, reviews, pr));
    }
  }

  /** The number of pull requests someone has opened and had merged so far (0 for someone new). */
  function CreatedBy(users: map<string, User>, u: string): int
  {
    if u in users then users[u].prsCreated else 0
  }

  function MergedBy(users: map<string, User>, u: string): int
  {
    if u in users then users[u].prsMerged else 0
  }

  /**
   * The people after process_pr: the author has one more pull request
   * created, and merged when it is; nobody else's counters move; everyone
   * keeps their login and team, and the commenters and reviewers who were new
   * are recorded without a team.
   */
  lemma UsersPrEffect(users: map<string, User>, pr: PullRequest, now: int)
    ensures var r := UsersPr(users, pr, now);
      Known(users, r)
      && pr.author in r
      && r[pr.author].prsCreated == CreatedBy(users, pr.author) + 1
      && r[pr.author].prsMerged == MergedBy(users, pr.author) + (if Merged(pr) then 1 else 0)
      && (forall x :: x in users && x != pr.author ==>
            r[x].prsCreated == users[x].prsCreated && r[x].prsMerged == users[x].prsMerged)
  {
    var u1 := AuthorOpen(users, pr);
    AuthorOpenEffect(users, pr);
    AfterOpenExtends(users, pr, now);
    KnownThenExtend(users, u1, UsersPr(users, pr, now));
  }

  /** The author's record as first taken: one more created, and merged when it is; nobody else's changes. */
  lemma AuthorOpenEffect(users: map<string, User>, pr: PullRequest)
    ensures var r := AuthorOpen(users, pr);
      Known(users, r)
      && r[pr.author].prsCreated == CreatedBy(users, pr.author) + 1
      && r[pr.author].prsMerged == MergedBy(users, pr.author) + (if Merged(pr) then 1 else 0)
      && (forall x :: x in users && x != pr.author ==> r[x] == users[x])
  {
  }

  /** Everything process_pr does to the people after the author's first update leaves the counters alone. */
  lemma AfterOpenExtends(users: map<string, User>, pr: PullRequest, now: int)
    ensures UsersExtend(AuthorOpen(users, pr), UsersPr(users, pr, now))
  {
    var u1 := AuthorOpen(users, pr);
    var u2 := CommentUsers(u1, pr.reviewComments + pr.issueComments, pr.number);
    CommentUsersExtend(u1, pr.reviewComments + pr.issueComments, pr.number);
    var c := AuthorCycles(u2, pr);
    WithTalliesExtends(u2, pr.author, u2[pr.author].metrics.(review := Cycled(u2[pr.author].metrics.review, ChangesRequested(pr.reviews))));
    var u3 := ReviewUsers(c, pr.reviews, pr);
    ReviewUsersExtend(c, pr.reviews, pr);
    var m := u3[pr.author].metrics;
    WithTalliesExtends(u3, pr.author, m.(time := TimeLevel(m.time, pr), bottleneck := Waits(m.bottleneck, pr, now)));
    UsersExtendTrans(u1, u2, c);
    UsersExtendTrans(u1, c, u3);
    UsersExtendTrans(u1, u3, AuthorClose(u3, pr, now));
  }

  lemma KnownThenExtend(a: map<string, User>, b: map<string, User>, c: map<string, User>)
    requires Known(a, b) && UsersExtend(b, c)
    ensures Known(a, c)
    ensures forall x :: x in b ==> c[x].prsCreated == b[x].prsCreated && c[x].prsMerged == b[x].prsMerged
  {
  }

  /** What Known keeps: the team rosters stay true and every record is under its login. */
  lemma KnownKeepsRecords(teams: map<string, set<string>>, a: map<string, User>, b: map<string, User>)
    requires Known(a, b) && TeamsOk(teams, a)
    requires forall k :: k in a ==> a[k].username == k
    ensures TeamsOk(teams, b)
    ensures forall k :: k in b ==> b[k].username == k
  {
  }

  /** One comment with an author is one comment given at that person's record, and nobody else's changes. */
  lemma CommentUserGives(users: map<string, User>, c: Comment, n: int)
    ensures var r := CommentUser(users, c, n);
      (c.user.None? ==> r == users)
      && (c.user.Some? ==>
            var u := c.user.value;
            u in r && r[u].metrics.review.commentsGiven
              == (if u in users then users[u].metrics.review.commentsGiven else 0) + 1
            && forall x :: x in users && x != u ==> r[x] == users[x])
  {
  }

  // ---------------------------------------------------------------- what process_pr does

  /**
   * Each processed pull request counts once as created at the repository
   * and its author, once as merged when it is, once as merged to the default
   * branch when its base is that branch, and adds its author to the
   * contributors. No other repository changes.
   */
  lemma ProcessPrCounters(o: Org, pr: PullRequest, repo: string, now: int)
    requires repo in o.repositories
    ensures var r := ProcessPr(o, pr, repo, now); var a := o.repositories[repo]; var b := r.repositories[repo];
      b.prsCreated == a.prsCreated + 1
      && b.prsMerged == a.prsMerged + (if Merged(pr) then 1 else 0)
      && b.prsMergedToMain == a.prsMergedToMain + (if Merged(pr) && pr.baseRef == a.defaultBranch then 1 else 0)
      && b.contributors == a.contributors + {pr.author}
      && pr.author in r.users
      && r.users[pr.author].prsCreated == CreatedBy(o.users, pr.author) + 1
      && r.users[pr.author].prsMerged == MergedBy(o.users, pr.author) + (if Merged(pr) then 1 else 0)
      && r.repositories.Keys == o.repositories.Keys
      && (forall k :: k in o.repositories && k != repo ==> r.repositories[k] == o.repositories[k])
  {
    RepoPrCounters(o.repositories[repo], pr, o.users, now);
    ProcessPrFrame(o, pr, repo, now);
    UsersPrEffect(o.users, pr, now);
  }

  lemma RepoPrCounters(a: Repo, pr: PullRequest, users: map<string, User>, now: int)
    ensures var b := RepoPr(a, pr, users, now);
      b.prsCreated == a.prsCreated + 1
      && b.prsMerged == a.prsMerged + (if Merged(pr) then 1 else 0)
      && b.prsMergedToMain == a.prsMergedToMain + (if Merged(pr) && pr.baseRef == a.defaultBranch then 1 else 0)
      && b.contributors == a.contributors + {pr.author}
      && b.name == a.name
  {
  }

  /**
   * process_pr already credits the organisation's code accumulator, and
   * aggregate_metrics adds the repository's on top: a first pull request of
   * an organisation with one repository is counted twice.
   */
  lemma CodeCountedTwice(name: string, repo: string, defaultBranch: string, pr: PullRequest, now: int)
    ensures var o := WithRepository(NewOrg(name), repo, defaultBranch, now);
      var r := ProcessPr(o, pr, repo, now);
      (forall i :: 0 <= i < |r.order| ==> r.order[i] in r.repositories)
      && Aggregate(r).metrics.code.additions == 2 * pr.additions
      && Aggregate(r).metrics.code.deletions == 2 * pr.deletions
  {
    var o := WithRepository(NewOrg(name), repo, defaultBranch, now);
    var r := ProcessPr(o, pr, repo, now);
    assert r.order == [repo];
    var rs := ReposOf(r.repositories, r.order);
    assert rs == [r.repositories[repo]];
    RollCodeSums(r.metrics.code, rs);
    assert rs[..0] == [];
  }

  /**
   * The comments and reviews at the repository and at the organisation: a
   * comment given per authored comment and per authored review with a body,
   * a performed review per authored review, the review cycles when there are
   * any, and the review kinds counted twice per authored review plus once
   * more per self-review.
   */
  lemma ProcessPrReviews(o: Org, pr: PullRequest, repo: string, now: int)
    requires repo in o.repositories
    ensures var r := ProcessPr(o, pr, repo, now); var n := ChangesRequested(pr.reviews);
      var comments := CommentsWithUser(pr.reviewComments + pr.issueComments);
      var a := o.repositories[repo].metrics; var b := r.repositories[repo].metrics;
      r.metrics.review.commentsGiven == o.metrics.review.commentsGiven + comments + BodiedReviews(pr.reviews)
      && r.metrics.review.performed == o.metrics.review.performed + ReviewsWithUser(pr.reviews)
      && r.metrics.review.cycles == (if n > 0 then o.metrics.review.cycles + [n] else o.metrics.review.cycles)
      && ReviewTypes(r.metrics.collab) == ReviewTypes(o.metrics.collab) + 2 * ReviewsWithUser(pr.reviews) + SelfReviews(pr.reviews, pr.author)
      && b.review.commentsGiven == a.review.commentsGiven + comments + BodiedReviews(pr.reviews)
      && b.review.performed == a.review.performed + ReviewsWithUser(pr.reviews)
      && ReviewTypes(b.collab) == ReviewTypes(a.collab) + 2 * ReviewsWithUser(pr.reviews) + SelfReviews(pr.reviews, pr.author)
  {
    ReviewLevelCounts(o.metrics.review, pr);
    ReviewLevelCounts(o.repositories[repo].metrics.review, pr);
    CollabLevelTypes(o.metrics.collab, pr, o.users);
    CollabLevelTypes(o.repositories[repo].metrics.collab, pr, o.users);
  }

  /**
   * A merged pull request adds one time to merge and, with commits, one
   * cycle time from the last listed commit; an open one changes nothing.
   */
  lemma TimeLevelTimes(t: TimeTally, pr: PullRequest)
    ensures var r := TimeLevel(t, pr);
      (Merged(pr) ==>
         (|r.toMerge| == |t.toMerge| + 1
          && r.cycleTimes == t.cycleTimes
               + (if pr.commits != [] then [pr.mergedAt.value - pr.commits[|pr.commits| - 1].committerDate] else [])))
      && (!Merged(pr) ==> r == t)
  {
  }

  /**
   * The review wait and response times are added after the bottleneck
   * update, so an open pull request with reviews has its first wait recorded
   * twice.
   */
  lemma WaitsTimes(b: BottleneckTally, pr: PullRequest, now: int)
    ensures var r := Waits(b, pr, now);
      (pr.reviews != [] ==> r.responseTimes == b.responseTimes + ResponseTimes(pr.reviews))
      && (!Merged(pr) && pr.reviews != [] ==>
            r.waitTimes == b.waitTimes + [FirstSubmission(pr.reviews) - pr.createdAt, FirstSubmission(pr.reviews) - pr.createdAt])
      && (Merged(pr) && pr.reviews != [] ==> r.waitTimes == b.waitTimes + [FirstSubmission(pr.reviews) - pr.createdAt])
  {
    var b1 := BottleneckStep(b, pr, now);
    assert b1.responseTimes == b.responseTimes;
    assert b1.waitTimes == if !Merged(pr) && pr.reviews != [] then b.waitTimes + [FirstSubmission(pr.reviews) - pr.createdAt] else b.waitTimes;
  }

  /** The organisation's and the repository's accumulators are the level's, with the teams as recorded before. */
  lemma ProcessPrLevels(o: Org, pr: PullRequest, repo: string, now: int)
    requires repo in o.repositories
    ensures var r := ProcessPr(o, pr, repo, now);
      r.metrics == LevelPr(o.metrics, pr, o.users, now)
      && r.repositories[repo].metrics == LevelPr(o.repositories[repo].metrics, pr, o.users, now)
  {
  }

  /**
   * The organisation's merge times, bottlenecks and waits: a merged pull
   * request adds one time to merge and, with commits, one cycle time from
   * the last listed commit; the review wait and response times are added
   * after the bottleneck update, so an open pull request with reviews has
   * its first wait recorded twice.
   */
  lemma ProcessPrTimes(o: Org, pr: PullRequest, repo: string, now: int)
    requires repo in o.repositories
    ensures var r := ProcessPr(o, pr, repo, now);
      (Merged(pr) ==>
         (|r.metrics.time.toMerge| == |o.metrics.time.toMerge| + 1
          && r.metrics.time.cycleTimes == o.metrics.time.cycleTimes
               + (if pr.commits != [] then [pr.mergedAt.value - pr.commits[|pr.commits| - 1].committerDate] else [])))
      && (!Merged(pr) ==> r.metrics.time == o.metrics.time)
      && (pr.reviews != [] ==> r.metrics.bottleneck.responseTimes == o.metrics.bottleneck.responseTimes + ResponseTimes(pr.reviews))
      && (!Merged(pr) && pr.reviews != [] ==>
            r.metrics.bottleneck.waitTimes == o.metrics.bottleneck.waitTimes
              + [FirstSubmission(pr.reviews) - pr.createdAt, FirstSubmission(pr.reviews) - pr.createdAt])
  {
    ProcessPrLevels(o, pr, repo, now);
    TimeLevelTimes(o.metrics.time, pr);
    WaitsTimes(o.metrics.bottleneck, pr, now);
  }

  /**
   * The repository's teams involved gain the author's team and every
   * reviewer's, when these have one, read after the reviews as the source
   * does; its last update becomes the latest of what it was, the creation
   * instant and the merge instant (the current instant for an open pull
   * request).
   */
  lemma ProcessPrTeamsAndLast(o: Org, pr: PullRequest, repo: string, now: int)
    requires repo in o.repositories
    ensures var r := ProcessPr(o, pr, repo, now); var a := o.repositories[repo]; var b := r.repositories[repo];
      b.teamsInvolved == a.teamsInvolved + AuthorTeams(r.users, pr.author) + ReviewerTeams(r.users, pr.reviews)
      && b.lastUpdated == Max(Max(a.lastUpdated, pr.createdAt), ClosedAt(pr, now))
      && b.lastUpdated >= a.lastUpdated
  {
    RepoPrTeamsAndLast(o.repositories[repo], pr, o.users, now);
    UsersPrTeams(o.users, pr, now);
  }

  lemma RepoPrTeamsAndLast(a: Repo, pr: PullRequest, users: map<string, User>, now: int)
    ensures var b := RepoPr(a, pr, users, now);
      b.teamsInvolved == a.teamsInvolved + AuthorTeams(users, pr.author) + ReviewerTeams(users, pr.reviews)
      && b.lastUpdated == Max(Max(a.lastUpdated, pr.createdAt), ClosedAt(pr, now))
      && b.lastUpdated >= a.lastUpdated
  {
  }

  /** The teams read after the reviews are the teams as recorded before the pull request. */
  lemma UsersPrTeams(users: map<string, User>, pr: PullRequest, now: int)
    ensures AuthorTeams(UsersPr(users, pr, now), pr.author) == AuthorTeams(users, pr.author)
    ensures ReviewerTeams(UsersPr(users, pr, now), pr.reviews) == ReviewerTeams(users, pr.reviews)
  {
    UsersPrEffect(users, pr, now);
    KnownTeams(users, UsersPr(users, pr, now));
    ReviewerTeamsSame(users, UsersPr(users, pr, now), pr.reviews);
  }

  /** process_pr keeps the relations between the records: order, teams, logins and names. */
  lemma ProcessPrKeeps(o: Org, pr: PullRequest, repo: string, now: int)
    requires OrgOk(o) && repo in o.repositories
    ensures OrgOk(ProcessPr(o, pr, repo, now))
  {
    UsersPrEffect(o.users, pr, now);
    OkOf(o, repo, RepoPr(o.repositories[repo], pr, o.users, now), UsersPr(o.users, pr, now), LevelPr(o.metrics, pr, o.users, now));
  }

  /** Replacing one repository's record by one under the same name and the people by a Known extension keeps the relations. */
  lemma OkOf(o: Org, repo: string, a: Repo, users: map<string, User>, m: Tallies)
    requires OrgOk(o) && repo in o.repositories && a.name == repo && Known(o.users, users)
    ensures OrgOk(o.(repositories := o.repositories[repo := a], users := users, metrics := m))
  {
    KnownKeepsRecords(o.teams, o.users, users);
  }

  /** process_pr leaves the order, the teams, the set of repositories and their names as they were. */
  lemma ProcessPrFrame(o: Org, pr: PullRequest, repo: string, now: int)
    requires repo in o.repositories
    ensures var r := ProcessPr(o, pr, repo, now);
      r.order == o.order && r.teams == o.teams && r.name == o.name
      && r.repositories.Keys == o.repositories.Keys
      && r.repositories[repo].name == o.repositories[repo].name
      && (forall k :: k in o.repositories && k != repo ==> r.repositories[k] == o.repositories[k])
  {
    FrameOf(o, repo, RepoPr(o.repositories[repo], pr, o.users, now), UsersPr(o.users, pr, now), LevelPr(o.metrics, pr, o.users, now));
  }

  lemma FrameOf(o: Org, repo: string, a: Repo, users: map<string, User>, m: Tallies)
    requires repo in o.repositories && a.name == o.repositories[repo].name
    ensures var r := o.(repositories := o.repositories[repo := a], users := users, metrics := m);
      r.order == o.order && r.teams == o.teams && r.name == o.name
      && r.repositories.Keys == o.repositories.Keys
      && r.repositories[repo].name == o.repositories[repo].name
      && (forall k :: k in o.repositories && k != repo ==> r.repositories[k] == o.repositories[k])
  {
  }

  lemma OkFromParts(o: Org, r: Org)
    requires OrgOk(o) && r.order == o.order && r.teams == o.teams && r.repositories.Keys == o.repositories.Keys
    requires forall k :: k in r.repositories ==> r.repositories[k].name == k
    requires Known(o.users, r.users)
    ensures OrgOk(r)
  {
    KnownKeepsRecords(o.teams, o.users, r.users);
  }
}

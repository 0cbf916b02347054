// The five pull-request accumulators (src/wellcode_cli/github/models/metrics.py;
// wellcode_cli/github/models/metrics.py holds the same five classes). Each is a
// class whose update method changes its fields in place; `State()` gives the
// fields as a value and the `...Step` function beside it says what one update
// does to that value. Durations are whole seconds, where the source keeps
// float hours; the thresholds are scaled to match.

module GithubAccumulators {
  import opened Common
  import opened Clock
  import opened GithubData

  // ---------------------------------------------------------------- BottleneckMetrics

  /** An open pull request older than this is stale (168 hours). */
  const StaleThreshold: int := 168 * Hour
  /** An open pull request older than this is long-running (336 hours). */
  const LongRunningThreshold: int := 336 * Hour

  datatype BottleneckTally = BottleneckTally(
    stale: int, longRunning: int, blocked: int,
    waitTimes: seq<int>, responseTimes: seq<int>, users: map<string, int>)

  const EmptyBottleneckTally := BottleneckTally(0, 0, 0, [], [], map[])

  /** BottleneckMetrics.update_from_pr at instant `now`: only pull requests that are not merged count. */
  function BottleneckStep(b: BottleneckTally, pr: PullRequest, now: int): BottleneckTally
  {
    if Merged(pr) then b
    else
      var age := now - pr.createdAt;
      BottleneckTally(
        b.stale + (if age > StaleThreshold then 1 else 0),
        b.longRunning + (if age > LongRunningThreshold then 1 else 0),
        b.blocked + (if IsBlocked(pr) then 1 else 0),
        if pr.reviews != [] then b.waitTimes + [FirstSubmission(pr.reviews) - pr.createdAt] else b.waitTimes,
        b.responseTimes,
        if IsBlocked(pr) then Bump(b.users, pr.author, 1) else b.users)
  }

  /** Long-running implies stale, and the per-author counts add up to the blocked count. */
  ghost predicate BottleneckCountsOk(stale: int, longRunning: int, blocked: int, users: map<string, int>)
  {
    0 <= longRunning <= stale && (forall u :: u in users ==> users[u] >= 1) && MapSum(users) == blocked
  }

  ghost predicate BottleneckTallyOk(b: BottleneckTally)
  {
    BottleneckCountsOk(b.stale, b.longRunning, b.blocked, b.users)
  }

  lemma BottleneckStartOk()
    ensures BottleneckTallyOk(EmptyBottleneckTally)
  {
    MapSumZero(EmptyBottleneckTally.users);
  }

  /** Every update keeps the bottleneck relations. */
  lemma BottleneckStepKeeps(b: BottleneckTally, pr: PullRequest, now: int)
    requires BottleneckTallyOk(b)
    ensures BottleneckTallyOk(BottleneckStep(b, pr, now))
  {
    if !Merged(pr) && IsBlocked(pr) {
      MapSumBump(b.users, pr.author, 1);
    }
  }

  /**
   * An open pull request is counted blocked exactly when a label says so, and
   * it then adds one to its author; a merged one changes nothing.
   */
  lemma BottleneckStepBlocked(b: BottleneckTally, pr: PullRequest, now: int)
    ensures Merged(pr) ==> BottleneckStep(b, pr, now) == b
    ensures !Merged(pr) ==> (BottleneckStep(b, pr, now).blocked == b.blocked + 1 <==> IsBlocked(pr))
    ensures !Merged(pr) && IsBlocked(pr) ==> Get(BottleneckStep(b, pr, now).users, pr.author) == Get(b.users, pr.author) + 1
    ensures !Merged(pr) && now - pr.createdAt > LongRunningThreshold ==>
      BottleneckStep(b, pr, now).stale == b.stale + 1 && BottleneckStep(b, pr, now).longRunning == b.longRunning + 1
  {
  }

  datatype BottleneckStats = BottleneckStats(
    stale: int, longRunning: int, blocked: int, avgReviewWait: real, avgResponse: real)

  /** BottleneckMetrics.get_stats without the ranking of users. */
  function BottleneckStatsOf(b: BottleneckTally): (s: BottleneckStats)
    ensures s.stale == b.stale && s.longRunning == b.longRunning && s.blocked == b.blocked
    ensures b.waitTimes == [] ==> s.avgReviewWait == 0.0
    ensures b.waitTimes != [] ==> s.avgReviewWait * (|b.waitTimes| as real) == Sum(b.waitTimes) as real
    ensures b.responseTimes == [] ==> s.avgResponse == 0.0
    ensures b.responseTimes != [] ==> s.avgResponse * (|b.responseTimes| as real) == Sum(b.responseTimes) as real
  {
    BottleneckStats(b.stale, b.longRunning, b.blocked, Mean(b.waitTimes), Mean(b.responseTimes))
  }

  class BottleneckMetrics {
    var stale: int
    var longRunning: int
    var blocked: int
    var waitTimes: seq<int>
    var responseTimes: seq<int>
    var users: map<string, int>

    function State(): BottleneckTally
      reads this
    {
      BottleneckTally(stale, longRunning, blocked, waitTimes, responseTimes, users)
    }

    ghost predicate Valid()
      reads this
    {
      BottleneckCountsOk(stale, longRunning, blocked, users)
    }

    constructor ()
      ensures State() == EmptyBottleneckTally && Valid()
    {
      stale, longRunning, blocked := 0, 0, 0;
      waitTimes, responseTimes, users := [], [], map[];
      new;
      BottleneckStartOk();
    }

    method UpdateFromPr(pr: PullRequest, now: int)
      requires Valid()
      modifies this
      ensures Valid()
      ensures State() == BottleneckStep(old(State()), pr, now)
    {
      BottleneckStepKeeps(State(), pr, now);
      if !Merged(pr) {
        ghost var before := State();
        CountAge(pr, now, before);
        CountBlocked(pr, before);
        CountWait(pr, before);
      }
    }

    /** The age of an open pull request against the two thresholds. */
    method CountAge(pr: PullRequest, now: int, ghost b: BottleneckTally)
      requires !Merged(pr) && stale == b.stale && longRunning == b.longRunning
      modifies this`stale, this`longRunning
      ensures stale == BottleneckStep(b, pr, now).stale && longRunning == BottleneckStep(b, pr, now).longRunning
    {
      var age := now - pr.createdAt;
      if age > StaleThreshold {
        stale := stale + 1;
      }
      if age > LongRunningThreshold {
        longRunning := longRunning + 1;
      }
    }

    /** A blocking label counts the pull request and its author. */
    method CountBlocked(pr: PullRequest, ghost b: BottleneckTally)
      requires !Merged(pr) && blocked == b.blocked && users == b.users
      modifies this`blocked, this`users
      ensures blocked == BottleneckStep(b, pr, 0).blocked && users == BottleneckStep(b, pr, 0).users
    {
      if IsBlocked(pr) {
        blocked := blocked + 1;
        users := users[pr.author := Get(users, pr.author) + 1];
      }
    }

    /** The wait until the first review, when there is one. */
    method CountWait(pr: PullRequest, ghost b: BottleneckTally)
      requires !Merged(pr) && waitTimes == b.waitTimes
      modifies this`waitTimes
      ensures waitTimes == BottleneckStep(b, pr, 0).waitTimes
    {
      if |pr.reviews| > 0 {
        waitTimes := waitTimes + [FirstSubmission(pr.reviews) - pr.createdAt];
      }
    }
  }

  // ---------------------------------------------------------------- ReviewMetrics

  datatype ReviewTally = ReviewTally(
    performed: int, blocking: int, commentsGiven: int, commentsReceived: int,
    firstReview: seq<int>, cycles: seq<int>, waitTimes: seq<int>, reviewers: map<int, set<string>>)

  const EmptyReviewTally := ReviewTally(0, 0, 0, 0, [], [], [], map[])

  function ReviewersOf(m: map<int, set<string>>, n: int): set<string>
  {
    if n in m then m[n] else {}
  }

  /**
   * ReviewMetrics.update_from_review without an organisation to credit (the
   * callers never pass one). The first-review list holds durations, and the
   * source tests the pull-request number for membership in it: in seconds,
   * the number of hours times 3600.
   */
  function ReviewStep(t: ReviewTally, r: Review, pr: PullRequest): ReviewTally
  {
    if r.user.None? then t
    else
      var wait := r.submittedAt - pr.createdAt;
      ReviewTally(
        t.performed + 1,
        t.blocking + (if r.state == "CHANGES_REQUESTED" then 1 else 0),
        t.commentsGiven + (if r.body != "" then 1 else 0),
        t.commentsReceived,
        if pr.number * Hour !in t.firstReview then t.firstReview + [wait] else t.firstReview,
        t.cycles,
        t.waitTimes + [wait],
        t.reviewers[pr.number := ReviewersOf(t.reviewers, pr.number) + {r.user.value}])
  }

  /** One wait time per performed review, blocking ones among them, and no empty reviewer set. */
  ghost predicate ReviewCountsOk(performed: int, blocking: int, firstReview: seq<int>, waitTimes: seq<int>,
                                 reviewers: map<int, set<string>>)
  {
    0 <= blocking <= performed && performed == |waitTimes| && |firstReview| <= performed
    && (forall n :: n in reviewers ==> reviewers[n] != {})
  }

  ghost predicate ReviewTallyOk(t: ReviewTally)
  {
    ReviewCountsOk(t.performed, t.blocking, t.firstReview, t.waitTimes, t.reviewers)
  }

  lemma ReviewStartOk()
    ensures ReviewTallyOk(EmptyReviewTally)
  {
  }

  /** Every update keeps the review relations. */
  lemma ReviewStepKeeps(t: ReviewTally, r: Review, pr: PullRequest)
    requires ReviewTallyOk(t)
    ensures ReviewTallyOk(ReviewStep(t, r, pr))
  {
  }

  /**
   * A review without a user changes nothing; one with a user is performed once,
   * and its reviewer joins the pull request's set of reviewers.
   */
  lemma ReviewStepRecords(t: ReviewTally, r: Review, pr: PullRequest)
    ensures r.user.None? ==> ReviewStep(t, r, pr) == t
    ensures r.user.Some? ==> ReviewStep(t, r, pr).performed == t.performed + 1
    ensures r.user.Some? ==> ReviewersOf(ReviewStep(t, r, pr).reviewers, pr.number) == ReviewersOf(t.reviewers, pr.number) + {r.user.value}
    ensures r.user.Some? ==> ReviewStep(t, r, pr).waitTimes == t.waitTimes + [r.submittedAt - pr.createdAt]
  {
  }

  /** The same review twice leaves the reviewer sets as once: a reviewer counts once per pull request. */
  lemma ReviewStepReviewersIdempotent(t: ReviewTally, r: Review, pr: PullRequest)
    ensures ReviewStep(ReviewStep(t, r, pr), r, pr).reviewers == ReviewStep(t, r, pr).reviewers
    ensures r.user.Some? ==> ReviewStep(ReviewStep(t, r, pr), r, pr).performed == t.performed + 2
  {
    if r.user.Some? {
      var once := ReviewStep(t, r, pr).reviewers;
      assert ReviewersOf(once, pr.number) + {r.user.value} == ReviewersOf(once, pr.number);
    }
  }

  /** The reviewer-set sizes, one per pull request. */
  function ReviewerCounts(m: map<int, set<string>>): (c: map<int, int>)
    ensures c.Keys == m.Keys
    ensures forall n :: n in c ==> c[n] == |m[n]|
  {
    map n | n in m :: |m[n]|
  }

  /** Without empty sets, there is at least one reviewer per pull request. */
  lemma ReviewerCountsAtLeastOne(m: map<int, set<string>>)
    ensures |ReviewerCounts(m)| == |m|
    ensures (forall n :: n in m ==> m[n] != {}) ==> MapSum(ReviewerCounts(m)) >= |m|
  {
    var counts := ReviewerCounts(m);
    assert counts.Keys == m.Keys;
    if forall n :: n in m ==> m[n] != {} {
      forall n | n in counts ensures counts[n] >= 1 {
        assert m[n] != {};
      }
      MapSumAtLeastSize(counts);
    }
  }

  datatype ReviewStats = ReviewStats(
    performed: int, blocking: int, avgFirstReview: real, avgCycles: real, avgReviewers: real, totalComments: int)

  /** ReviewMetrics.get_stats. */
  ghost function ReviewStatsOf(t: ReviewTally): (s: ReviewStats)
    ensures s.performed == t.performed && s.blocking == t.blocking && s.totalComments == t.commentsGiven
    ensures t.firstReview != [] ==> s.avgFirstReview * (|t.firstReview| as real) == Sum(t.firstReview) as real
    ensures t.cycles != [] ==> s.avgCycles * (|t.cycles| as real) == Sum(t.cycles) as real
    ensures t.firstReview == [] ==> s.avgFirstReview == 0.0
    ensures t.cycles == [] ==> s.avgCycles == 0.0
    ensures t.reviewers == map[] ==> s.avgReviewers == 0.0
    ensures t.reviewers != map[] ==> s.avgReviewers * (|t.reviewers| as real) == MapSum(ReviewerCounts(t.reviewers)) as real
    ensures ReviewTallyOk(t) && t.reviewers != map[] ==> s.avgReviewers >= 1.0
  {
    var counts := ReviewerCounts(t.reviewers);
    var avg := Ratio(MapSum(counts), |t.reviewers|);
    ReviewerCountsAtLeastOne(t.reviewers);
    ReviewStats(t.performed, t.blocking, Mean(t.firstReview), Mean(t.cycles), avg, t.commentsGiven)
  }

  class ReviewMetrics {
    var performed: int
    var blocking: int
    var commentsGiven: int
    var commentsReceived: int
    var firstReview: seq<int>
    var cycles: seq<int>
    var waitTimes: seq<int>
    var reviewers: map<int, set<string>>

    function State(): ReviewTally
      reads this
    {
      ReviewTally(performed, blocking, commentsGiven, commentsReceived, firstReview, cycles, waitTimes, reviewers)
    }

    ghost predicate Valid()
      reads this
    {
      ReviewCountsOk(performed, blocking, firstReview, waitTimes, reviewers)
    }

    constructor ()
      ensures State() == EmptyReviewTally && Valid()
    {
      performed, blocking, commentsGiven, commentsReceived := 0, 0, 0, 0;
      firstReview, cycles, waitTimes, reviewers := [], [], [], map[];
    }

    method UpdateFromReview(r: Review, pr: PullRequest)
      requires Valid()
      modifies this
      ensures Valid()
      ensures State() == ReviewStep(old(State()), r, pr)
    {
      ReviewStepKeeps(State(), r, pr);
      if r.user.Some? {
        performed := performed + 1;
        reviewers := reviewers[pr.number := ReviewersOf(reviewers, pr.number) + {r.user.value}];
        if r.state == "CHANGES_REQUESTED" {
          blocking := blocking + 1;
        }
        if r.body != "" {
          commentsGiven := commentsGiven + 1;
        }
        var wait := r.submittedAt - pr.createdAt;
        if pr.number * Hour !in firstReview {
          firstReview := firstReview + [wait];
        }
        waitTimes := waitTimes + [wait];
      }
    }
  }

  // ---------------------------------------------------------------- CodeMetrics

  datatype CodeTally = CodeTally(
    changes: seq<int>, files: seq<int>, commits: seq<int>,
    reverts: int, hotfixes: int, additions: int, deletions: int, avgSize: real)

  const EmptyCodeTally := CodeTally([], [], [], 0, 0, 0, 0, 0.0)

  /** CodeMetrics.update_from_pr. */
  function CodeStep(c: CodeTally, pr: PullRequest): CodeTally
  {
    var changes := c.changes + [pr.additions + pr.deletions];
    CodeTally(
      changes,
      c.files + [pr.filesCount],
      c.commits + [|pr.commits|],
      c.reverts + (if IsRevert(pr) then 1 else 0),
      c.hotfixes + (if IsHotfix(pr) then 1 else 0),
      c.additions + pr.additions,
      c.deletions + pr.deletions,
      Sum(changes) as real / |changes| as real)
  }

  /** One entry per pull request in each list; the change sizes add up to the totals. */
  ghost predicate CodeCountsOk(changes: seq<int>, files: seq<int>, commits: seq<int>,
                               reverts: int, hotfixes: int, additions: int, deletions: int)
  {
    |files| == |changes| && |commits| == |changes|
    && 0 <= reverts <= |changes| && 0 <= hotfixes <= |changes|
    && Sum(changes) == additions + deletions
  }

  ghost predicate CodeTallyOk(c: CodeTally)
  {
    CodeCountsOk(c.changes, c.files, c.commits, c.reverts, c.hotfixes, c.additions, c.deletions)
  }

  lemma CodeStartOk()
    ensures CodeTallyOk(EmptyCodeTally)
  {
  }

  /** Every update keeps the code relations, and leaves the average size equal to the mean change. */
  lemma CodeStepKeeps(c: CodeTally, pr: PullRequest)
    requires CodeTallyOk(c)
    ensures CodeTallyOk(CodeStep(c, pr))
    ensures CodeStep(c, pr).avgSize == Mean(CodeStep(c, pr).changes)
    ensures CodeStep(c, pr).avgSize * (|CodeStep(c, pr).changes| as real)
      == (CodeStep(c, pr).additions + CodeStep(c, pr).deletions) as real
  {
    CodeStepOk(c, pr);
    var r := CodeStep(c, pr);
    MeanTimesCount(r.avgSize, r.changes, r.additions + r.deletions);
  }

  lemma CodeStepOk(c: CodeTally, pr: PullRequest)
    requires CodeTallyOk(c)
    ensures CodeTallyOk(CodeStep(c, pr))
    ensures CodeStep(c, pr).avgSize == Mean(CodeStep(c, pr).changes)
  {
    SumAppend(c.changes, pr.additions + pr.deletions);
  }

  /** A mean of a non-empty list times its length is the list's total. */
  lemma MeanTimesCount(avg: real, s: seq<int>, total: int)
    requires s != [] && avg == Mean(s) && Sum(s) == total
    ensures avg * (|s| as real) == total as real
  {
  }

  datatype CodeStats = CodeStats(
    avgChanges: real, avgFiles: real, avgCommits: real, reverts: int, hotfixes: int, totalChanges: int)

  /** CodeMetrics.get_stats: with the relations kept, the total change is the sum of the change list. */
  function CodeStatsOf(c: CodeTally): (s: CodeStats)
    ensures s.reverts == c.reverts && s.hotfixes == c.hotfixes
    ensures s.totalChanges == c.additions + c.deletions
    ensures CodeTallyOk(c) ==> s.totalChanges == Sum(c.changes)
    ensures CodeTallyOk(c) && c.changes != [] ==> s.avgChanges * (|c.changes| as real) == s.totalChanges as real
    ensures c.files != [] ==> s.avgFiles * (|c.files| as real) == Sum(c.files) as real
    ensures c.commits != [] ==> s.avgCommits * (|c.commits| as real) == Sum(c.commits) as real
    ensures c.changes == [] ==> s.avgChanges == 0.0
    ensures c.files == [] ==> s.avgFiles == 0.0
    ensures c.commits == [] ==> s.avgCommits == 0.0
  {
    CodeStats(Mean(c.changes), Mean(c.files), Mean(c.commits), c.reverts, c.hotfixes, c.additions + c.deletions)
  }

  class CodeMetrics {
    var changes: seq<int>
    var files: seq<int>
    var commits: seq<int>
    var reverts: int
    var hotfixes: int
    var additions: int
    var deletions: int
    var avgSize: real

    function State(): CodeTally
      reads this
    {
      CodeTally(changes, files, commits, reverts, hotfixes, additions, deletions, avgSize)
    }

    ghost predicate Valid()
      reads this
    {
      CodeCountsOk(changes, files, commits, reverts, hotfixes, additions, deletions)
    }

    constructor ()
      ensures State() == EmptyCodeTally && Valid()
    {
      changes, files, commits := [], [], [];
      reverts, hotfixes, additions, deletions := 0, 0, 0, 0;
      avgSize := 0.0;
    }

    method UpdateFromPr(pr: PullRequest)
      requires Valid()
      modifies this
      ensures Valid()
      ensures State() == CodeStep(old(State()), pr)
    {
      CodeStepKeeps(State(), pr);
      ghost var before := State();
      CountSizes(pr, before);
      CountKinds(pr, before);
    }

    /** The size lists and totals, and the running average size. */
    method CountSizes(pr: PullRequest, ghost c: CodeTally)
      requires changes == c.changes && files == c.files && commits == c.commits
      requires additions == c.additions && deletions == c.deletions
      modifies this`changes, this`files, this`commits, this`additions, this`deletions, this`avgSize
      ensures changes == CodeStep(c, pr).changes && files == CodeStep(c, pr).files && commits == CodeStep(c, pr).commits
      ensures additions == CodeStep(c, pr).additions && deletions == CodeStep(c, pr).deletions
      ensures avgSize == CodeStep(c, pr).avgSize
    {
      changes := changes + [pr.additions + pr.deletions];
      files := files + [pr.filesCount];
      commits := commits + [|pr.commits|];
      additions := additions + pr.additions;
      deletions := deletions + pr.deletions;
      avgSize := Sum(changes) as real / |changes| as real;
    }

    /** Reverts and hotfixes, from the title and the labels. */
    method CountKinds(pr: PullRequest, ghost c: CodeTally)
      requires reverts == c.reverts && hotfixes == c.hotfixes
      modifies this`reverts, this`hotfixes
      ensures reverts == CodeStep(c, pr).reverts && hotfixes == CodeStep(c, pr).hotfixes
    {
      if IsRevert(pr) {
        reverts := reverts + 1;
      }
      if IsHotfix(pr) {
        hotfixes := hotfixes + 1;
      }
    }
  }

  // ---------------------------------------------------------------- TimeMetrics

  /** The three keys of merge_distribution. */
  datatype Distribution = Distribution(businessHours: int, afterHours: int, weekends: int)

  datatype MergeSlot = BusinessHours | AfterHours | Weekend

  /** Saturday and Sunday first; otherwise 09:00 to 16:59 UTC is business hours. */
  function SlotOf(mergedAt: int): (s: MergeSlot)
    ensures s == Weekend <==> Weekday(mergedAt) >= 5
    ensures s == BusinessHours <==> Weekday(mergedAt) < 5 && 9 <= HourOf(mergedAt) < 17
  {
    if Weekday(mergedAt) >= 5 then Weekend
    else if 9 <= HourOf(mergedAt) < 17 then BusinessHours
    else AfterHours
  }

  /** `merge_distribution[slot] += 1`. */
  function Tick(d: Distribution, mergedAt: int): (r: Distribution)
    ensures r.businessHours + r.afterHours + r.weekends == d.businessHours + d.afterHours + d.weekends + 1
  {
    match SlotOf(mergedAt)
    case Weekend => d.(weekends := d.weekends + 1)
    case BusinessHours => d.(businessHours := d.businessHours + 1)
    case AfterHours => d.(afterHours := d.afterHours + 1)
  }

  function DistributionTotal(d: Distribution): int
  {
    d.businessHours + d.afterHours + d.weekends
  }

  datatype TimeTally = TimeTally(
    toMerge: seq<int>, leadTimes: seq<int>, distribution: Distribution, deploymentFrequency: real, cycleTimes: seq<int>)

  const EmptyTimeTally := TimeTally([], [], Distribution(0, 0, 0), 0.0, [])

  /** TimeMetrics.update_from_pr: only merged pull requests count; the lead time needs a first commit. */
  function TimeStep(t: TimeTally, pr: PullRequest, firstCommit: Option<int>): TimeTally
  {
    if !Merged(pr) then t
    else
      var merged := pr.mergedAt.value;
      t.(toMerge := t.toMerge + [merged - pr.createdAt],
         leadTimes := if firstCommit.Some? then t.leadTimes + [merged - firstCommit.value] else t.leadTimes,
         distribution := Tick(t.distribution, merged))
  }

  /** Each merge lands in exactly one slot of the distribution; the lead times are at most the merges. */
  ghost predicate TimeCountsOk(toMerge: seq<int>, leadTimes: seq<int>, d: Distribution)
  {
    0 <= d.businessHours && 0 <= d.afterHours && 0 <= d.weekends
    && DistributionTotal(d) == |toMerge| && |leadTimes| <= |toMerge|
  }

  ghost predicate TimeTallyOk(t: TimeTally)
  {
    TimeCountsOk(t.toMerge, t.leadTimes, t.distribution)
  }

  lemma TimeStartOk()
    ensures TimeTallyOk(EmptyTimeTally)
  {
  }

  /** Every update keeps the time relations; a merged pull request adds one merge and one slot. */
  lemma TimeStepKeeps(t: TimeTally, pr: PullRequest, firstCommit: Option<int>)
    requires TimeTallyOk(t)
    ensures TimeTallyOk(TimeStep(t, pr, firstCommit))
    ensures Merged(pr) ==> |TimeStep(t, pr, firstCommit).toMerge| == |t.toMerge| + 1
    ensures !Merged(pr) ==> TimeStep(t, pr, firstCommit) == t
  {
  }

  /** A weekend merge counts as a weekend even inside working hours. */
  lemma WeekendFirst(t: TimeTally, pr: PullRequest, firstCommit: Option<int>)
    requires Merged(pr) && Weekday(pr.mergedAt.value) >= 5
    ensures TimeStep(t, pr, firstCommit).distribution.weekends == t.distribution.weekends + 1
    ensures TimeStep(t, pr, firstCommit).distribution.businessHours == t.distribution.businessHours
  {
  }

  datatype TimeStats = TimeStats(
    avgToMerge: real, avgLeadTime: real, distribution: Distribution, deploymentFrequency: real, avgCycleTime: real)

  /** TimeMetrics.get_stats without the medians. */
  function TimeStatsOf(t: TimeTally): (s: TimeStats)
    ensures s.distribution == t.distribution && s.deploymentFrequency == t.deploymentFrequency
    ensures t.toMerge != [] ==> s.avgToMerge * (|t.toMerge| as real) == Sum(t.toMerge) as real
    ensures t.leadTimes != [] ==> s.avgLeadTime * (|t.leadTimes| as real) == Sum(t.leadTimes) as real
    ensures t.cycleTimes != [] ==> s.avgCycleTime * (|t.cycleTimes| as real) == Sum(t.cycleTimes) as real
    ensures t.toMerge == [] ==> s.avgToMerge == 0.0
    ensures t.leadTimes == [] ==> s.avgLeadTime == 0.0
    ensures t.cycleTimes == [] ==> s.avgCycleTime == 0.0
  {
    TimeStats(Mean(t.toMerge), Mean(t.leadTimes), t.distribution, t.deploymentFrequency, Mean(t.cycleTimes))
  }

  class TimeMetrics {
    var toMerge: seq<int>
    var leadTimes: seq<int>
    var distribution: Distribution
    var deploymentFrequency: real
    var cycleTimes: seq<int>

    function State(): TimeTally
      reads this
    {
      TimeTally(toMerge, leadTimes, distribution, deploymentFrequency, cycleTimes)
    }

    ghost predicate Valid()
      reads this
    {
      TimeCountsOk(toMerge, leadTimes, distribution)
    }

    constructor ()
      ensures State() == EmptyTimeTally && Valid()
    {
      toMerge, leadTimes, cycleTimes := [], [], [];
      distribution := Distribution(0, 0, 0);
      deploymentFrequency := 0.0;
    }

    method UpdateFromPr(pr: PullRequest, firstCommit: Option<int>)
      requires Valid()
      modifies this
      ensures Valid()
      ensures State() == TimeStep(old(State()), pr, firstCommit)
    {
      TimeStepKeeps(State(), pr, firstCommit);
      if Merged(pr) {
        var merged := pr.mergedAt.value;
        toMerge := toMerge + [merged - pr.createdAt];
        if firstCommit.Some? {
          leadTimes := leadTimes + [merged - firstCommit.value];
        }
        if Weekday(merged) >= 5 {
          distribution := distribution.(weekends := distribution.weekends + 1);
        } else if 9 <= HourOf(merged) < 17 {
          distribution := distribution.(businessHours := distribution.businessHours + 1);
        } else {
          distribution := distribution.(afterHours := distribution.afterHours + 1);
        }
      }
    }
  }

  // ---------------------------------------------------------------- CollaborationMetrics

  datatype CollabTally = CollabTally(
    crossTeam: int, selfMerges: int, team: int, external: int,
    commentsPerPr: map<int, int>, participation: real, commentsByUser: map<string, map<int, int>>)

  const EmptyCollabTally := CollabTally(0, 0, 0, 0, map[], 0.0, map[])

  function Inner(m: map<string, map<int, int>>, u: string): map<int, int>
  {
    if u in m then m[u] else map[]
  }

  /** `comments_by_user[u][n] += 1` and `review_comments_per_pr[n] += 1`. */
  function CountComment(c: CollabTally, u: string, n: int): CollabTally
  {
    c.(commentsPerPr := Bump(c.commentsPerPr, n, 1),
       commentsByUser := c.commentsByUser[u := Bump(Inner(c.commentsByUser, u), n, 1)])
  }

  /**
   * CollaborationMetrics.update_from_review. A team is "" when the caller has
   * none (the source's None or empty string are both false).
   */
  function CollabReviewStep(c: CollabTally, r: Review, pr: PullRequest, authorTeam: string, reviewerTeam: string): CollabTally
  {
    if r.user.None? then c
    else
      var typed := CountKind(c, r.user.value, pr, authorTeam, reviewerTeam);
      if r.body != "" then CountComment(typed, r.user.value, pr.number) else typed
  }

  /** The kind of a review by `u`: self-merge, same team, cross team, else external. */
  function CountKind(c: CollabTally, u: string, pr: PullRequest, authorTeam: string, reviewerTeam: string): CollabTally
  {
    if u == pr.author then c.(selfMerges := c.selfMerges + 1)
    else if authorTeam != "" && reviewerTeam != "" then
      (if authorTeam == reviewerTeam then c.(team := c.team + 1) else c.(crossTeam := c.crossTeam + 1))
    else c.(external := c.external + 1)
  }

  /** One comment of update_from_comments: skipped without an author. */
  function CommentStep(c: CollabTally, comment: Comment, n: int): CollabTally
  {
    if comment.user.None? then c else CountComment(c, comment.user.value, n)
  }

  /** CollaborationMetrics.update_from_comments on a list of comments. */
  function CommentsStep(c: CollabTally, comments: seq<Comment>, n: int): CollabTally
    decreases |comments|
  {
    if comments == [] then c else CommentStep(CommentsStep(c, comments[..|comments| - 1], n), comments[|comments| - 1], n)
  }

  function ReviewTypes(c: CollabTally): int
  {
    c.selfMerges + c.team + c.crossTeam + c.external
  }

  /** Every per-user count is positive and at most the pull request's count. */
  ghost predicate CollabCountsOk(perPr: map<int, int>, byUser: map<string, map<int, int>>)
  {
    (forall n :: n in perPr ==> perPr[n] >= 1)
    && (forall u :: u in byUser ==> WithinPerPr(byUser[u], perPr))
  }

  /** One user's per-pull-request counts are positive and at most the pull request's. */
  ghost predicate WithinPerPr(counts: map<int, int>, perPr: map<int, int>)
  {
    forall n :: n in counts ==> n in perPr && 1 <= counts[n] <= perPr[n]
  }

  ghost predicate CollabTallyOk(c: CollabTally)
  {
    CollabCountsOk(c.commentsPerPr, c.commentsByUser)
  }

  lemma CollabStartOk()
    ensures CollabTallyOk(EmptyCollabTally)
  {
  }

  lemma CountCommentKeeps(c: CollabTally, u: string, n: int)
    requires CollabTallyOk(c)
    ensures CollabTallyOk(CountComment(c, u, n))
    ensures MapSum(CountComment(c, u, n).commentsPerPr) == MapSum(c.commentsPerPr) + 1
  {
    MapSumBump(c.commentsPerPr, n, 1);
    CountCommentOk(c, u, n);
  }

  lemma CountCommentOk(c: CollabTally, u: string, n: int)
    requires CollabTallyOk(c)
    ensures CollabTallyOk(CountComment(c, u, n))
  {
    var r := CountComment(c, u, n);
    forall v | v in r.commentsByUser
      ensures WithinPerPr(r.commentsByUser[v], r.commentsPerPr)
    {
      if v == u {
        BumpWithin(Inner(c.commentsByUser, u), c.commentsPerPr, n);
      } else {
        WithinGrow(c.commentsByUser[v], c.commentsPerPr, n);
      }
    }
  }

  /** Counting one more comment on n for a user and for the pull request keeps the user within it. */
  lemma BumpWithin(counts: map<int, int>, perPr: map<int, int>, n: int)
    requires forall k :: k in perPr ==> perPr[k] >= 1
    requires WithinPerPr(counts, perPr)
    ensures WithinPerPr(Bump(counts, n, 1), Bump(perPr, n, 1))
  {
  }

  /** Counting one more comment on a pull request keeps every other user within it. */
  lemma WithinGrow(counts: map<int, int>, perPr: map<int, int>, n: int)
    requires WithinPerPr(counts, perPr)
    ensures WithinPerPr(counts, Bump(perPr, n, 1))
  {
  }

  /**
   * A review with a user adds one to exactly one of the four review kinds, and
   * the self-merge kind exactly when it is the author's own review.
   */
  lemma CollabReviewKinds(c: CollabTally, r: Review, pr: PullRequest, authorTeam: string, reviewerTeam: string)
    ensures r.user.None? ==> CollabReviewStep(c, r, pr, authorTeam, reviewerTeam) == c
    ensures r.user.Some? ==> ReviewTypes(CollabReviewStep(c, r, pr, authorTeam, reviewerTeam)) == ReviewTypes(c) + 1
    ensures r.user.Some? ==> (CollabReviewStep(c, r, pr, authorTeam, reviewerTeam).selfMerges == c.selfMerges + 1
                              <==> r.user.value == pr.author)
    ensures r.user.Some? && r.user.value != pr.author && authorTeam != "" && authorTeam == reviewerTeam ==>
      CollabReviewStep(c, r, pr, authorTeam, reviewerTeam).team == c.team + 1
  {
  }

  /** Every review keeps the comment relations; one with a body and a user adds one comment. */
  lemma CollabReviewKeeps(c: CollabTally, r: Review, pr: PullRequest, authorTeam: string, reviewerTeam: string)
    requires CollabTallyOk(c)
    ensures CollabTallyOk(CollabReviewStep(c, r, pr, authorTeam, reviewerTeam))
    ensures MapSum(CollabReviewStep(c, r, pr, authorTeam, reviewerTeam).commentsPerPr)
      == MapSum(c.commentsPerPr) + (if r.user.Some? && r.body != "" then 1 else 0)
  {
    CollabReviewOk(c, r, pr, authorTeam, reviewerTeam);
    CollabReviewSum(c, r, pr, authorTeam, reviewerTeam);
  }

  lemma CollabReviewOk(c: CollabTally, r: Review, pr: PullRequest, authorTeam: string, reviewerTeam: string)
    requires CollabTallyOk(c)
    ensures CollabTallyOk(CollabReviewStep(c, r, pr, authorTeam, reviewerTeam))
  {
    if r.user.Some? {
      var k := CountKind(c, r.user.value, pr, authorTeam, reviewerTeam);
      assert k.commentsPerPr == c.commentsPerPr && k.commentsByUser == c.commentsByUser;
      assert CollabTallyOk(k);
      if r.body != "" {
        CountCommentOk(k, r.user.value, pr.number);
      }
    }
  }

  lemma CollabReviewSum(c: CollabTally, r: Review, pr: PullRequest, authorTeam: string, reviewerTeam: string)
    ensures MapSum(CollabReviewStep(c, r, pr, authorTeam, reviewerTeam).commentsPerPr)
      == MapSum(c.commentsPerPr) + (if r.user.Some? && r.body != "" then 1 else 0)
  {
    var bumped := r.user.Some? && r.body != "";
    CollabReviewPerPr(c, r, pr, authorTeam, reviewerTeam);
    SumAfterBump(CollabReviewStep(c, r, pr, authorTeam, reviewerTeam).commentsPerPr, c.commentsPerPr, pr.number, bumped);
  }

  /** The review's pull request gets one more comment exactly when the review has a user and a body. */
  lemma CollabReviewPerPr(c: CollabTally, r: Review, pr: PullRequest, authorTeam: string, reviewerTeam: string)
    ensures CollabReviewStep(c, r, pr, authorTeam, reviewerTeam).commentsPerPr
      == if r.user.Some? && r.body != "" then Bump(c.commentsPerPr, pr.number, 1) else c.commentsPerPr
  {
    if r.user.Some? {
      var k := CountKind(c, r.user.value, pr, authorTeam, reviewerTeam);
      assert k.commentsPerPr == c.commentsPerPr;
    }
  }

  /**
   * update_from_comments keeps the comment relations, adds one comment per
   * comment with an author and leaves the review kinds alone.
   */
  lemma {:induction false} CommentsStepKeeps(c: CollabTally, comments: seq<Comment>, n: int)
    requires CollabTallyOk(c)
    ensures CollabTallyOk(CommentsStep(c, comments, n))
    ensures MapSum(CommentsStep(c, comments, n).commentsPerPr) == MapSum(c.commentsPerPr) + CommentsWithUser(comments)
    ensures ReviewTypes(CommentsStep(c, comments, n)) == ReviewTypes(c)
    decreases |comments|
  {
    if comments != [] {
      var init := comments[..|comments| - 1];
      var last := comments[|comments| - 1];
      CommentsStepKeeps(c, init, n);
      if last.user.Some? {
        CountCommentKeeps(CommentsStep(c, init, n), last.user.value, n);
      }
    }
  }

  lemma CommentsStepNext(c: CollabTally, comments: seq<Comment>, i: nat, n: int)
    requires i < |comments|
    ensures CommentsStep(c, comments[..i + 1], n) == CommentStep(CommentsStep(c, comments[..i], n), comments[i], n)
  {
    assert comments[..i + 1][..i] == comments[..i];
  }

  /** update_from_comments touches only the comment counts. */
  lemma {:induction false} CommentsStepKinds(c: CollabTally, comments: seq<Comment>, n: int)
    ensures CommentsStep(c, comments, n) == c.(commentsPerPr := CommentsStep(c, comments, n).commentsPerPr,
                                               commentsByUser := CommentsStep(c, comments, n).commentsByUser)
    decreases |comments|
  {
    if comments != [] {
      CommentsStepKinds(c, comments[..|comments| - 1], n);
    }
  }

  lemma CommentTotalAtLeastSize(c: CollabTally)
    ensures CollabTallyOk(c) ==> MapSum(c.commentsPerPr) >= |c.commentsPerPr|
  {
    if CollabTallyOk(c) {
      forall n | n in c.commentsPerPr ensures c.commentsPerPr[n] >= 1 {
        assert CollabCountsOk(c.commentsPerPr, c.commentsByUser);
      }
      MapSumAtLeastSize(c.commentsPerPr);
    }
  }

  datatype CollabStats = CollabStats(
    crossTeam: int, selfMerges: int, team: int, external: int,
    avgCommentsPerPr: real, participation: real, totalComments: int, activeReviewers: int)

  /** CollaborationMetrics.get_stats. */
  ghost function CollabStatsOf(c: CollabTally): (s: CollabStats)
    ensures s.totalComments == MapSum(c.commentsPerPr) && s.activeReviewers == |c.commentsByUser|
    ensures c.commentsPerPr == map[] ==> s.avgCommentsPerPr == 0.0
    ensures CollabTallyOk(c) && c.commentsPerPr != map[] ==> s.avgCommentsPerPr >= 1.0
    ensures 0 <= c.team && 0 <= c.crossTeam && 0 <= c.external && 0 <= c.selfMerges ==> 0.0 <= s.participation <= 1.0
  {
    var reviews := c.team + c.crossTeam + c.external;
    var total := MapSum(c.commentsPerPr);
    CommentTotalAtLeastSize(c);
    var avg := Ratio(total, |c.commentsPerPr|);
    var part := Ratio(reviews, reviews + c.selfMerges);
    assert |c.commentsPerPr| == 0 <==> c.commentsPerPr == map[];
    CollabStats(c.crossTeam, c.selfMerges, c.team, c.external, avg, part, total, |c.commentsByUser|)
  }

  /** The average is total comments over commented pull requests; participation is reviews over reviews and self-merges. */
  lemma CollabStatsMeans(c: CollabTally)
    ensures var s := CollabStatsOf(c);
      c.commentsPerPr != map[] ==> s.avgCommentsPerPr * (|c.commentsPerPr| as real) == s.totalComments as real
    ensures var s := CollabStatsOf(c); var n := c.team + c.crossTeam + c.external;
      s.participation * ((n + c.selfMerges) as real) == (if n + c.selfMerges > 0 then n as real else 0.0)
    ensures var n := c.team + c.crossTeam + c.external;
      n + c.selfMerges <= 0 ==> CollabStatsOf(c).participation == 0.0
    ensures c.commentsPerPr == map[] ==> CollabStatsOf(c).avgCommentsPerPr == 0.0
  {
    var n := c.team + c.crossTeam + c.external;
    assert CollabStatsOf(c).participation == Ratio(n, n + c.selfMerges);
    assert CollabStatsOf(c).avgCommentsPerPr == Ratio(MapSum(c.commentsPerPr), |c.commentsPerPr|);
  }

  class CollaborationMetrics {
    var crossTeam: int
    var selfMerges: int
    var team: int
    var external: int
    var commentsPerPr: map<int, int>
    var participation: real
    var commentsByUser: map<string, map<int, int>>

    function State(): CollabTally
      reads this
    {
      CollabTally(crossTeam, selfMerges, team, external, commentsPerPr, participation, commentsByUser)
    }

    ghost predicate Valid()
      reads this
    {
      CollabCountsOk(commentsPerPr, commentsByUser)
    }

    constructor ()
      ensures State() == EmptyCollabTally && Valid()
    {
      crossTeam, selfMerges, team, external := 0, 0, 0, 0;
      commentsPerPr, participation, commentsByUser := map[], 0.0, map[];
    }

    method UpdateFromReview(r: Review, pr: PullRequest, authorTeam: string, reviewerTeam: string)
      requires Valid()
      modifies this
      ensures Valid()
      ensures State() == CollabReviewStep(old(State()), r, pr, authorTeam, reviewerTeam)
    {
      CollabReviewKeeps(State(), r, pr, authorTeam, reviewerTeam);
      if r.user.Some? {
        ghost var before := State();
        Classify(r.user.value, pr, authorTeam, reviewerTeam, before);
        if r.body != "" {
          AddComment(r.user.value, pr.number, CountKind(before, r.user.value, pr, authorTeam, reviewerTeam));
        }
      }
    }

    /** Exactly one of the four kinds of review. */
    method Classify(u: string, pr: PullRequest, authorTeam: string, reviewerTeam: string, ghost c: CollabTally)
      requires State() == c
      modifies this`selfMerges, this`team, this`crossTeam, this`external
      ensures State() == CountKind(c, u, pr, authorTeam, reviewerTeam)
    {
      if u == pr.author {
        selfMerges := selfMerges + 1;
      } else if authorTeam != "" && reviewerTeam != "" {
        if authorTeam == reviewerTeam {
          team := team + 1;
        } else {
          crossTeam := crossTeam + 1;
        }
      } else {
        external := external + 1;
      }
    }

    /** One comment by `u` on pull request `n`. */
    method AddComment(u: string, n: int, ghost c: CollabTally)
      requires State() == c
      modifies this`commentsPerPr, this`commentsByUser
      ensures State() == CountComment(c, u, n)
    {
      commentsPerPr := commentsPerPr[n := Get(commentsPerPr, n) + 1];
      var inner := if u in commentsByUser then commentsByUser[u] else map[];
      commentsByUser := commentsByUser[u := inner[n := Get(inner, n) + 1]];
    }

    method UpdateFromComments(comments: seq<Comment>, n: int)
      requires Valid()
      modifies this
      ensures Valid()
      ensures State() == CommentsStep(old(State()), comments, n)
    {
      CommentsStepKeeps(State(), comments, n);
      CountComments(comments, n);
    }

    /** The loop of update_from_comments: one count per comment with an author. */
    method CountComments(comments: seq<Comment>, n: int)
      modifies this`commentsPerPr, this`commentsByUser
      ensures State() == CommentsStep(old(State()), comments, n)
    {
      var i := 0;
      while i < |comments|
        invariant 0 <= i <= |comments|
        invariant State() == CommentsStep(old(State()), comments[..i], n)
      {
        CommentsStepNext(old(State()), comments, i, n);
        if comments[i].user.Some? {
          AddComment(comments[i].user.value, n, State());
        }
        i := i + 1;
      }
      assert comments[..i] == comments;
    }
  }
}

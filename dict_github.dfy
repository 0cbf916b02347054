// The dictionary-shaped repository record of wellcode_cli/github_metrics.py
// and its process_pr: one pull request applied to one repository's record.
// The record is a value; process_pr's in-place updates of the caller's
// dictionary become a method returning the new record. Durations are whole
// seconds (the source divides them by 3600 into float hours).

module DictGithub {
  import opened Common
  import opened Text
  import opened Clock
  import opened GithubData

  /** A pull request as this pass reads it: the shared record, who merged it, and how many comments `get_comments` lists. */
  datatype DictPr = DictPr(pr: PullRequest, mergedBy: Option<string>, comments: nat)

  /** One entry of `user_contributions`. */
  datatype Contribution = Contribution(created: int, merged: int)

  datatype ReviewPart = ReviewPart(
    timeToFirstReview: seq<int>,
    reviewCycles: seq<int>,
    reviewersPerPr: map<int, set<string>>,
    blockingReviews: int)

  datatype CodePart = CodePart(
    changesPerPr: seq<int>,
    filesChangedPerPr: seq<int>,
    commitCountPerPr: seq<int>,
    revertCount: int,
    hotfixCount: int)

  datatype CollabPart = CollabPart(crossTeamReviews: int, reviewCommentsPerPr: map<int, int>, selfMerges: int)

  /** `timing_metrics['merge_time_distribution']`. */
  datatype MergeTimes = MergeTimes(businessHours: int, afterHours: int, weekends: int)

  datatype BottleneckPart = BottleneckPart(stalePrs: int, longRunningPrs: int, reviewWaitTime: seq<int>)

  /** The `repo_metrics` dictionary built by get_repo_metrics (and `combined_metrics` of merge_metrics). */
  datatype RepoRecord = RepoRecord(
    prsCreated: int,
    prsMerged: int,
    prsMergedToMain: int,
    commentsPerPr: map<int, int>,
    timeToMerge: seq<int>,
    leadTimes: seq<int>,
    userContributions: map<string, Contribution>,
    review: ReviewPart,
    code: CodePart,
    collab: CollabPart,
    timing: MergeTimes,
    bottleneck: BottleneckPart)

  /** The record get_repo_metrics starts from: every counter 0, every list and dictionary empty. */
  function Empty(): RepoRecord
  {
    RepoRecord(0, 0, 0, map[], [], [], map[],
      ReviewPart([], [], map[], 0),
      CodePart([], [], [], 0, 0),
      CollabPart(0, map[], 0),
      MergeTimes(0, 0, 0),
      BottleneckPart(0, 0, []))
  }

  /** A defaultdict entry of `user_contributions`: a missing user reads as zero. */
  function At(m: map<string, Contribution>, u: string): Contribution
  {
    if u in m then m[u] else Contribution(0, 0)
  }

  // ---------------------------------------------------------------- what process_pr decides

  /** A team filter is set and the author is not one of the team's members. */
  predicate TeamSkipped(p: DictPr, teamFilter: string, members: set<string>)
  {
    teamFilter != "" && p.pr.author !in members
  }

  /** The pull request passes the team filter and was created inside [start, end]. */
  predicate Accepted(p: DictPr, start: int, end: int, teamFilter: string, members: set<string>)
  {
    !TeamSkipped(p, teamFilter, members) && start <= p.pr.createdAt <= end
  }

  /** The lower-cased base branch is "main" or "master". */
  predicate ToMain(pr: PullRequest)
  {
    Lower(pr.baseRef) == "main" || Lower(pr.baseRef) == "master"
  }

  /** Creation to merge, in seconds. */
  function MergeDuration(pr: PullRequest): int
    requires Merged(pr)
  {
    pr.mergedAt.value - pr.createdAt
  }

  /** One sample per review: submission minus creation, in review order. */
  function ReviewWaits(reviews: seq<Review>, created: int): (w: seq<int>)
    ensures |w| == |reviews|
    ensures forall i :: 0 <= i < |reviews| ==> w[i] == reviews[i].submittedAt - created
  {
    if reviews == [] then []
    else ReviewWaits(reviews[..|reviews| - 1], created) + [reviews[|reviews| - 1].submittedAt - created]
  }

  /** The logins of the review authors other than the pull request's author, collected review by review. */
  function ReviewerSet(reviews: seq<Review>, author: string): set<string>
  {
    if reviews == [] then {}
    else
      var rv := reviews[|reviews| - 1];
      ReviewerSet(reviews[..|reviews| - 1], author) + (if rv.user.Some? && rv.user.value != author then {rv.user.value} else {})
  }

  /** The reviewer set holds exactly the logins of reviews with an author other than the pull request's. */
  lemma {:induction false} ReviewerSetIs(reviews: seq<Review>, author: string)
    ensures forall x :: x in ReviewerSet(reviews, author) <==>
      exists i :: 0 <= i < |reviews| && reviews[i].user == Some(x) && x != author
    decreases |reviews|
  {
    if reviews != [] {
      var init := reviews[..|reviews| - 1];
      ReviewerSetIs(init, author);
      assert forall i :: 0 <= i < |init| ==> init[i] == reviews[i];
    }
  }

  /** The merge-time bucket a merge instant falls in: weekdays split at 9:00 and 17:00 UTC, weekends apart. */
  function Bucketed(t: MergeTimes, mergedAt: int): MergeTimes
  {
    if Weekday(mergedAt) < 5 then
      if 9 <= HourOf(mergedAt) < 17 then t.(businessHours := t.businessHours + 1)
      else t.(afterHours := t.afterHours + 1)
    else t.(weekends := t.weekends + 1)
  }

  /** The `user_contributions` step: counted only without a user filter or for the filtered user. */
  function Contributed(uc: map<string, Contribution>, pr: PullRequest, userFilter: string): map<string, Contribution>
  {
    if userFilter == "" || pr.author == userFilter then
      var c := At(uc, pr.author);
      uc[pr.author := Contribution(c.created + 1, c.merged + (if Merged(pr) then 1 else 0))]
    else uc
  }

  /** The creation-to-merge duration of a merged pull request, as a list of zero or one samples. */
  function Durations(pr: PullRequest): seq<int>
  {
    if Merged(pr) then [MergeDuration(pr)] else []
  }

  /** `review_metrics` after a pull request: a wait sample per review, and its reviewers when there are any. */
  function ReviewApplied(rp: ReviewPart, pr: PullRequest): ReviewPart
  {
    var rs := ReviewerSet(pr.reviews, pr.author);
    rp.(timeToFirstReview := rp.timeToFirstReview + ReviewWaits(pr.reviews, pr.createdAt),
        reviewersPerPr := if rs != {} then rp.reviewersPerPr[pr.number := rs] else rp.reviewersPerPr)
  }

  /** `code_quality` after a pull request: its commit count, and its change and file counts when positive. */
  function CodeApplied(cp: CodePart, pr: PullRequest): CodePart
  {
    var changes := pr.additions + pr.deletions;
    cp.(commitCountPerPr := cp.commitCountPerPr + [|pr.commits|],
        changesPerPr := cp.changesPerPr + (if changes > 0 then [changes] else []),
        filesChangedPerPr := cp.filesChangedPerPr + (if pr.filesCount > 0 then [pr.filesCount] else []))
  }

  /** `collaboration` after a pull request. */
  function CollabApplied(c: CollabPart, p: DictPr): CollabPart
  {
    var pr := p.pr;
    var rs := ReviewerSet(pr.reviews, pr.author);
    c.(reviewCommentsPerPr := if |pr.reviewComments| > 0 then c.reviewCommentsPerPr[pr.number := |pr.reviewComments|]
                              else c.reviewCommentsPerPr,
       crossTeamReviews := c.crossTeamReviews + (if |rs| > 1 then 1 else 0),
       selfMerges := c.selfMerges + (if Merged(pr) && p.mergedBy == Some(pr.author) then 1 else 0))
  }

  function TimingApplied(t: MergeTimes, pr: PullRequest): MergeTimes
  {
    if Merged(pr) then Bucketed(t, pr.mergedAt.value) else t
  }

  /** The record after an accepted pull request. */
  function Applied(m: RepoRecord, p: DictPr, userFilter: string): RepoRecord
  {
    var pr := p.pr;
    var d := Durations(pr);
    RepoRecord(
      m.prsCreated + 1,
      m.prsMerged + (if Merged(pr) then 1 else 0),
      m.prsMergedToMain + (if Merged(pr) && ToMain(pr) then 1 else 0),
      m.commentsPerPr[pr.number := p.comments],
      m.timeToMerge + d + d,
      m.leadTimes + d,
      Contributed(m.userContributions, pr, userFilter),
      ReviewApplied(m.review, pr),
      CodeApplied(m.code, pr),
      CollabApplied(m.collab, p),
      TimingApplied(m.timing, pr),
      m.bottleneck)
  }

  /** process_pr: filtered-out pull requests leave the record as it was. */
  function ProcessPrDict(m: RepoRecord, p: DictPr, start: int, end: int,
                         userFilter: string, teamFilter: string, members: set<string>): RepoRecord
  {
    if Accepted(p, start, end, teamFilter, members) then Applied(m, p, userFilter) else m
  }

  // ---------------------------------------------------------------- the record's invariant

  /** The relations the per-PR updates keep between counters and lists. */
  predicate TotalsOk(m: RepoRecord)
  {
    0 <= m.prsMergedToMain <= m.prsMerged <= m.prsCreated
    && m.timing.businessHours >= 0 && m.timing.afterHours >= 0 && m.timing.weekends >= 0
    && m.timing.businessHours + m.timing.afterHours + m.timing.weekends == m.prsMerged
    && |m.leadTimes| == m.prsMerged
    && |m.timeToMerge| == 2 * m.prsMerged
    && Sum(m.timeToMerge) == 2 * Sum(m.leadTimes)
    && 0 <= m.collab.selfMerges <= m.prsMerged
    && 0 <= m.collab.crossTeamReviews <= m.prsCreated
  }

  /** TotalsOk, and one commit count per created pull request. */
  predicate RecordOk(m: RepoRecord)
  {
    TotalsOk(m) && |m.code.commitCountPerPr| == m.prsCreated
  }

  lemma EmptyOk()
    ensures RecordOk(Empty())
  {
  }

  lemma DoubleSum(s: seq<int>, d: seq<int>, l: seq<int>)
    requires Sum(s) == 2 * Sum(l)
    ensures Sum(s + d + d) == 2 * Sum(l + d)
  {
    SumConcat(s + d, d);
    SumConcat(s, d);
    SumConcat(l, d);
  }

  lemma TimingAppliedCounts(t: MergeTimes, pr: PullRequest)
    ensures var b := TimingApplied(t, pr);
      b.businessHours + b.afterHours + b.weekends == t.businessHours + t.afterHours + t.weekends + (if Merged(pr) then 1 else 0)
      && b.businessHours >= t.businessHours && b.afterHours >= t.afterHours && b.weekends >= t.weekends
  {
  }

  /** An accepted pull request keeps the record's invariant. */
  lemma AppliedOk(m: RepoRecord, p: DictPr, userFilter: string)
    requires RecordOk(m)
    ensures RecordOk(Applied(m, p, userFilter))
  {
    var pr := p.pr;
    var r := Applied(m, p, userFilter);
    var d := Durations(pr);
    assert r.timeToMerge == m.timeToMerge + d + d && r.leadTimes == m.leadTimes + d;
    assert |d| == (if Merged(pr) then 1 else 0);
    DoubleSum(m.timeToMerge, d, m.leadTimes);
    TimingAppliedCounts(m.timing, pr);
    assert r.collab.crossTeamReviews <= m.collab.crossTeamReviews + 1;
    assert r.collab.selfMerges <= m.collab.selfMerges + (if Merged(pr) then 1 else 0);
  }

  /** process_pr keeps the record's invariant. */
  lemma ProcessPrKeepsOk(m: RepoRecord, p: DictPr, start: int, end: int,
                         userFilter: string, teamFilter: string, members: set<string>)
    requires RecordOk(m)
    ensures RecordOk(ProcessPrDict(m, p, start, end, userFilter, teamFilter, members))
  {
    if Accepted(p, start, end, teamFilter, members) {
      AppliedOk(m, p, userFilter);
    }
  }

  // ---------------------------------------------------------------- what one call does

  /** A pull request the team filter rejects, or one created outside [start, end], changes nothing. */
  lemma SkippedUnchanged(m: RepoRecord, p: DictPr, start: int, end: int,
                         userFilter: string, teamFilter: string, members: set<string>)
    requires TeamSkipped(p, teamFilter, members) || p.pr.createdAt < start || p.pr.createdAt > end
    ensures ProcessPrDict(m, p, start, end, userFilter, teamFilter, members) == m
  {
  }

  /**
   * An accepted pull request is counted once as created; as merged exactly when
   * it has a merge instant; and as merged to the main line exactly when it is
   * merged into "main" or "master" in any letter case.
   */
  lemma ProcessPrCounts(m: RepoRecord, p: DictPr, start: int, end: int,
                        userFilter: string, teamFilter: string, members: set<string>)
    requires Accepted(p, start, end, teamFilter, members)
    ensures var r := ProcessPrDict(m, p, start, end, userFilter, teamFilter, members);
      r.prsCreated == m.prsCreated + 1
      && (r.prsMerged == m.prsMerged + 1 <==> Merged(p.pr))
      && (r.prsMerged == m.prsMerged <==> !Merged(p.pr))
      && (r.prsMergedToMain == m.prsMergedToMain + 1 <==> Merged(p.pr) && ToMain(p.pr))
      && (r.prsMergedToMain == m.prsMergedToMain <==> !(Merged(p.pr) && ToMain(p.pr)))
  {
  }

  /**
   * A merged pull request appends its creation-to-merge duration twice to
   * `time_to_merge` and once to `lead_times`; an unmerged one appends nothing.
   */
  lemma MergeSamples(m: RepoRecord, p: DictPr, start: int, end: int,
                     userFilter: string, teamFilter: string, members: set<string>)
    requires Accepted(p, start, end, teamFilter, members)
    ensures var r := ProcessPrDict(m, p, start, end, userFilter, teamFilter, members);
      (Merged(p.pr) ==> r.timeToMerge == m.timeToMerge + [MergeDuration(p.pr), MergeDuration(p.pr)]
                        && r.leadTimes == m.leadTimes + [MergeDuration(p.pr)])
      && (!Merged(p.pr) ==> r.timeToMerge == m.timeToMerge && r.leadTimes == m.leadTimes)
  {
  }

  /**
   * `reviewers_per_pr` is written only when some review comes from someone
   * other than the author; the written set holds exactly those reviewers.
   * A cross-team review is counted exactly when there are at least two of them.
   */
  lemma ReviewersRecorded(m: RepoRecord, p: DictPr, start: int, end: int,
                          userFilter: string, teamFilter: string, members: set<string>)
    requires Accepted(p, start, end, teamFilter, members)
    ensures var r := ProcessPrDict(m, p, start, end, userFilter, teamFilter, members);
      var rs := ReviewerSet(p.pr.reviews, p.pr.author);
      (rs != {} ==> p.pr.number in r.review.reviewersPerPr && r.review.reviewersPerPr[p.pr.number] == rs
                    && p.pr.author !in r.review.reviewersPerPr[p.pr.number])
      && (rs == {} ==> r.review.reviewersPerPr == m.review.reviewersPerPr)
      && (r.collab.crossTeamReviews == m.collab.crossTeamReviews + 1 <==> |rs| >= 2)
      && (r.collab.crossTeamReviews == m.collab.crossTeamReviews <==> |rs| < 2)
  {
    ReviewerSetIs(p.pr.reviews, p.pr.author);
  }

  /** One review sample per review, whether or not the review is the first. */
  lemma ReviewSamples(m: RepoRecord, p: DictPr, start: int, end: int,
                      userFilter: string, teamFilter: string, members: set<string>)
    requires Accepted(p, start, end, teamFilter, members)
    ensures var r := ProcessPrDict(m, p, start, end, userFilter, teamFilter, members);
      var n := |m.review.timeToFirstReview|;
      |r.review.timeToFirstReview| == n + |p.pr.reviews|
      && r.review.timeToFirstReview[..n] == m.review.timeToFirstReview
      && forall i :: 0 <= i < |p.pr.reviews| ==>
           r.review.timeToFirstReview[n + i] == p.pr.reviews[i].submittedAt - p.pr.createdAt
  {
  }

  /** A merged pull request increments exactly one merge-time bucket; an unmerged one none. */
  lemma OneBucket(t: MergeTimes, mergedAt: int)
    ensures var b := Bucketed(t, mergedAt);
      (b.businessHours - t.businessHours) + (b.afterHours - t.afterHours) + (b.weekends - t.weekends) == 1
      && t.businessHours <= b.businessHours && t.afterHours <= b.afterHours && t.weekends <= b.weekends
      && (b.weekends == t.weekends + 1 <==> Weekday(mergedAt) >= 5)
      && (b.businessHours == t.businessHours + 1 <==> Weekday(mergedAt) < 5 && 9 <= HourOf(mergedAt) < 17)
  {
  }

  /** The user filter decides `user_contributions` and nothing else. */
  lemma UserFilterOnlyContributions(m: RepoRecord, p: DictPr, start: int, end: int,
                                    u1: string, u2: string, teamFilter: string, members: set<string>)
    ensures var r1 := ProcessPrDict(m, p, start, end, u1, teamFilter, members);
      var r2 := ProcessPrDict(m, p, start, end, u2, teamFilter, members);
      r1.(userContributions := m.userContributions) == r2.(userContributions := m.userContributions)
  {
  }

  /**
   * The author's contribution counts rise when no user filter is set or the
   * author is the filtered user, and no other user's entry changes.
   */
  lemma ContributionCounted(uc: map<string, Contribution>, pr: PullRequest, userFilter: string)
    ensures var r := Contributed(uc, pr, userFilter);
      (forall u :: u != pr.author ==> At(r, u) == At(uc, u))
      && (userFilter == "" || pr.author == userFilter ==>
            At(r, pr.author).created == At(uc, pr.author).created + 1
            && At(r, pr.author).merged == At(uc, pr.author).merged + (if Merged(pr) then 1 else 0))
      && (userFilter != "" && pr.author != userFilter ==> r == uc)
  {
  }

  // ---------------------------------------------------------------- the method

  method ReviewWaitsOf(reviews: seq<Review>, created: int) returns (w: seq<int>)
    ensures w == ReviewWaits(reviews, created)
  {
    w := [];
    var i := 0;
    while i < |reviews|
      invariant 0 <= i <= |reviews|
      invariant w == ReviewWaits(reviews[..i], created)
    {
      assert reviews[..i + 1][..i] == reviews[..i];
      w := w + [reviews[i].submittedAt - created];
      i := i + 1;
    }
    assert reviews[..i] == reviews;
  }

  method ReviewersOf(reviews: seq<Review>, author: string) returns (s: set<string>)
    ensures s == ReviewerSet(reviews, author)
  {
    s := {};
    var i := 0;
    while i < |reviews|
      invariant 0 <= i <= |reviews|
      invariant s == ReviewerSet(reviews[..i], author)
    {
      assert reviews[..i + 1][..i] == reviews[..i];
      var rv := reviews[i];
      if rv.user.Some? && rv.user.value != author {
        s := s + {rv.user.value};
      }
      i := i + 1;
    }
    assert reviews[..i] == reviews;
  }

  /** The counters and lists at the top of the record. */
  method CountPr(m: RepoRecord, p: DictPr) returns (created: int, merged: int, toMain: int,
                                                    comments: map<int, int>, timeToMerge: seq<int>, leadTimes: seq<int>)
    ensures var r := Applied(m, p, "");
      created == r.prsCreated && merged == r.prsMerged && toMain == r.prsMergedToMain
      && comments == r.commentsPerPr && timeToMerge == r.timeToMerge && leadTimes == r.leadTimes
  {
    var pr := p.pr;
    created, merged, toMain := m.prsCreated + 1, m.prsMerged, m.prsMergedToMain;
    timeToMerge, leadTimes := m.timeToMerge, m.leadTimes;
    if pr.mergedAt.Some? {
      merged := merged + 1;
      var base := Lower(pr.baseRef);
      if base == "main" || base == "master" {
        toMain := toMain + 1;
      }
      timeToMerge := timeToMerge + [pr.mergedAt.value - pr.createdAt];
    }
    comments := m.commentsPerPr[pr.number := p.comments];
    if pr.mergedAt.Some? {
      var t := pr.mergedAt.value - pr.createdAt;
      timeToMerge := timeToMerge + [t];
      leadTimes := leadTimes + [t];
    }
  }

  method ContributePr(uc: map<string, Contribution>, pr: PullRequest, userFilter: string) returns (r: map<string, Contribution>)
    ensures r == Contributed(uc, pr, userFilter)
  {
    r := uc;
    if userFilter == "" || pr.author == userFilter {
      var c := At(uc, pr.author);
      c := c.(created := c.created + 1);
      if pr.mergedAt.Some? {
        c := c.(merged := c.merged + 1);
      }
      r := uc[pr.author := c];
    }
  }

  method CodePr(code: CodePart, pr: PullRequest) returns (r: CodePart)
    ensures r == CodeApplied(code, pr)
  {
    r := code.(commitCountPerPr := code.commitCountPerPr + [|pr.commits|]);
    var total := pr.additions + pr.deletions;
    if total > 0 {
      r := r.(changesPerPr := r.changesPerPr + [total]);
    }
    if pr.filesCount > 0 {
      r := r.(filesChangedPerPr := r.filesChangedPerPr + [pr.filesCount]);
    }
  }

  /** The two review loops, the review-comment count, self-merges and the merge-time bucket. */
  method ReviewPr(review: ReviewPart, collab: CollabPart, timing: MergeTimes, p: DictPr)
    returns (review': ReviewPart, collab': CollabPart, timing': MergeTimes)
    ensures review' == ReviewApplied(review, p.pr)
    ensures collab' == CollabApplied(collab, p)
    ensures timing' == TimingApplied(timing, p.pr)
  {
    var pr := p.pr;
    var waits := ReviewWaitsOf(pr.reviews, pr.createdAt);
    review' := review.(timeToFirstReview := review.timeToFirstReview + waits);
    collab' := collab;
    if |pr.reviewComments| > 0 {
      collab' := collab'.(reviewCommentsPerPr := collab'.reviewCommentsPerPr[pr.number := |pr.reviewComments|]);
    }
    var reviewers := ReviewersOf(pr.reviews, pr.author);
    if reviewers != {} {
      review' := review'.(reviewersPerPr := review'.reviewersPerPr[pr.number := reviewers]);
      if |reviewers| > 1 {
        collab' := collab'.(crossTeamReviews := collab'.crossTeamReviews + 1);
      }
    }
    if pr.mergedAt.Some? && p.mergedBy.Some? && p.mergedBy.value == pr.author {
      collab' := collab'.(selfMerges := collab'.selfMerges + 1);
    }
    timing' := timing;
    if pr.mergedAt.Some? {
      timing' := Bucketed(timing', pr.mergedAt.value);
    }
  }

  /**
   * process_pr on a copy of the record. The statements updating disjoint parts
   * of the dictionary are grouped by part, which does not change their effect.
   */
  method ProcessPr(m: RepoRecord, p: DictPr, start: int, end: int,
                   userFilter: string, teamFilter: string, members: set<string>) returns (r: RepoRecord)
    ensures r == ProcessPrDict(m, p, start, end, userFilter, teamFilter, members)
  {
    var pr := p.pr;
    if teamFilter != "" && pr.author !in members {
      return m;
    }
    if pr.createdAt < start || pr.createdAt > end {
      return m;
    }
    var created, merged, toMain, comments, timeToMerge, leadTimes := CountPr(m, p);
    var review, collab, timing := ReviewPr(m.review, m.collab, m.timing, p);
    var code := CodePr(m.code, pr);
    var uc := ContributePr(m.userContributions, pr, userFilter);
    r := RepoRecord(created, merged, toMain, comments, timeToMerge, leadTimes, uc, review, code, collab, timing, m.bottleneck);
  }

  // ---------------------------------------------------------------- get_repo_metrics

  /** The record get_repo_metrics returns: every listed pull request applied in order to the empty record. */
  function RepoMetrics(pulls: seq<DictPr>, start: int, end: int,
                       userFilter: string, teamFilter: string, members: set<string>): RepoRecord
  {
    if pulls == [] then Empty()
    else ProcessPrDict(RepoMetrics(pulls[..|pulls| - 1], start, end, userFilter, teamFilter, members),
                       pulls[|pulls| - 1], start, end, userFilter, teamFilter, members)
  }

  /** The number of listed pull requests process_pr accepts. */
  function AcceptedCount(pulls: seq<DictPr>, start: int, end: int, teamFilter: string, members: set<string>): nat
  {
    if pulls == [] then 0
    else AcceptedCount(pulls[..|pulls| - 1], start, end, teamFilter, members)
         + (if Accepted(pulls[|pulls| - 1], start, end, teamFilter, members) then 1 else 0)
  }

  /** A repository's record keeps the invariant and counts exactly the accepted pull requests. */
  lemma {:induction false} RepoMetricsOk(pulls: seq<DictPr>, start: int, end: int,
                                         userFilter: string, teamFilter: string, members: set<string>)
    ensures var r := RepoMetrics(pulls, start, end, userFilter, teamFilter, members);
      RecordOk(r) && r.prsCreated == AcceptedCount(pulls, start, end, teamFilter, members)
    decreases |pulls|
  {
    if pulls != [] {
      var init := pulls[..|pulls| - 1];
      var last := pulls[|pulls| - 1];
      RepoMetricsOk(init, start, end, userFilter, teamFilter, members);
      var r0 := RepoMetrics(init, start, end, userFilter, teamFilter, members);
      ProcessPrKeepsOk(r0, last, start, end, userFilter, teamFilter, members);
    }
  }

  /** The pull-request loop of get_repo_metrics. */
  method GetRepoMetrics(pulls: seq<DictPr>, start: int, end: int,
                        userFilter: string, teamFilter: string, members: set<string>) returns (r: RepoRecord)
    ensures r == RepoMetrics(pulls, start, end, userFilter, teamFilter, members)
  {
    r := Empty();
    var i := 0;
    while i < |pulls|
      invariant 0 <= i <= |pulls|
      invariant r == RepoMetrics(pulls[..i], start, end, userFilter, teamFilter, members)
    {
      assert pulls[..i + 1][..i] == pulls[..i];
      r := ProcessPr(r, pulls[i], start, end, userFilter, teamFilter, members);
      i := i + 1;
    }
    assert pulls[..i] == pulls;
  }
}

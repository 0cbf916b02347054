// The passes of the GitHub report over one repository's pull requests
// (src/wellcode_cli/github/github_metrics.py, process_repository_batch and
// process_pr with the update_* helpers it runs). Each pass is a function on
// the organisation as a value, and a method on the organisation object proved
// to do what the function says. The source runs the passes of one pull
// request, and the pull requests of one batch, concurrently; here they run one
// after the other in the order the source submits them.

module GithubPasses {
  import opened Common
  import opened GithubData
  import opened GithubAccumulators
  import opened GithubOrg

  /** process_repository_batch hands each batch of this many pull requests to the executor. */
  const BatchSize: nat := 50

  // ---------------------------------------------------------------- selection

  predicate InWindow(pr: PullRequest, start: int, end: int)
  {
    start <= pr.createdAt <= end
  }

  /** A user filter of "" selects everybody. */
  predicate Selected(pr: PullRequest, start: int, end: int, userFilter: string)
  {
    InWindow(pr, start, end) && (userFilter == "" || pr.author == userFilter)
  }

  /** The relevant pull requests, in the order the repository lists them. */
  function Relevant(pulls: seq<PullRequest>, start: int, end: int, userFilter: string): (r: seq<PullRequest>)
    ensures |r| <= |pulls|
    ensures forall i :: 0 <= i < |r| ==> Selected(r[i], start, end, userFilter)
    decreases |pulls|
  {
    if pulls == [] then []
    else
      var init := Relevant(pulls[..|pulls| - 1], start, end, userFilter);
      if Selected(pulls[|pulls| - 1], start, end, userFilter) then init + [pulls[|pulls| - 1]] else init
  }

  /** A pull request is relevant exactly when it is listed and selected. */
  lemma {:induction false} RelevantMembers(pulls: seq<PullRequest>, start: int, end: int, userFilter: string, pr: PullRequest)
    ensures pr in Relevant(pulls, start, end, userFilter) <==> pr in pulls && Selected(pr, start, end, userFilter)
    decreases |pulls|
  {
    if pulls != [] {
      var init := pulls[..|pulls| - 1];
      RelevantMembers(init, start, end, userFilter, pr);
      assert pulls == init + [pulls[|pulls| - 1]];
    }
  }

  function MergedCount(prs: seq<PullRequest>): (n: nat)
    ensures n <= |prs|
  {
    if prs == [] then 0 else MergedCount(prs[..|prs| - 1]) + (if Merged(prs[|prs| - 1]) then 1 else 0)
  }

  /** Merged pull requests whose base branch is `branch`. */
  function ToBranchCount(prs: seq<PullRequest>, branch: string): (n: nat)
    ensures n <= MergedCount(prs)
  {
    if prs == [] then 0
    else ToBranchCount(prs[..|prs| - 1], branch) + (if Merged(prs[|prs| - 1]) && prs[|prs| - 1].baseRef == branch then 1 else 0)
  }

  function Authors(prs: seq<PullRequest>): (a: set<string>)
    ensures forall u :: u in a <==> exists i :: 0 <= i < |prs| && prs[i].author == u
  {
    if prs == [] then {}
    else
      var init := prs[..|prs| - 1];
      assert forall i :: 0 <= i < |init| ==> init[i] == prs[i];
      Authors(init) + {prs[|prs| - 1].author}
  }

  // ---------------------------------------------------------------- record updates

  function WithRepo(o: Org, name: string, r: Repo): Org
  {
    o.(repositories := o.repositories[name := r])
  }

  function WithUserRecord(o: Org, name: string, u: User): Org
  {
    o.(users := o.users[name := u])
  }

  function GaveComment(t: ReviewTally): ReviewTally
  {
    t.(commentsGiven := t.commentsGiven + 1)
  }

  // ---------------------------------------------------------------- update_code_metrics

  /** update_code_metrics: the organisation's and then the repository's code accumulator take the pull request. */
  function CodePass(o: Org, pr: PullRequest, repo: string): Org
  {
    CodeAtRepo(o.(code := CodeStep(o.code, pr)), pr, repo)
  }

  function CodeAtRepo(o: Org, pr: PullRequest, repo: string): Org
  {
    var r := RepoOf(o.repositories, repo);
    WithRepo(o, repo, r.(code := CodeStep(r.code, pr)))
  }

  // ---------------------------------------------------------------- update_review_metrics

  /** The organisation is told how many review comments the pull request received. */
  function ReceivedPass(o: Org, pr: PullRequest): Org
  {
    o.(review := o.review.(commentsReceived := o.review.commentsReceived + |pr.reviewComments|))
  }

  /**
   * One comment of update_review_metrics' loop: its author becomes a user,
   * and the author, the repository and the organisation each count one
   * comment given and one comment on the pull request.
   */
  function CommentPass(o: Org, c: Comment, pr: PullRequest, repo: string): Org
  {
    if c.user.None? then o
    else
      var o2 := RepoGave(UserGave(WithUser(o, c.user.value, ""), c, pr.number), c, pr.number, repo);
      o2.(review := GaveComment(o2.review), collab := CommentsStep(o2.collab, [c], pr.number))
  }

  /** The commenter's record counts the comment. */
  function UserGave(o: Org, c: Comment, n: int): Org
    requires c.user.Some? && c.user.value in o.users
  {
    var usr := o.users[c.user.value];
    WithUserRecord(o, c.user.value, usr.(review := GaveComment(usr.review), collab := CommentsStep(usr.collab, [c], n)))
  }

  /** The repository's record counts the comment. */
  function RepoGave(o: Org, c: Comment, n: int, repo: string): Org
  {
    var r := RepoOf(o.repositories, repo);
    WithRepo(o, repo, r.(review := GaveComment(r.review), collab := CommentsStep(r.collab, [c], n)))
  }

  function CommentsPass(o: Org, comments: seq<Comment>, pr: PullRequest, repo: string): Org
    decreases |comments|
  {
    if comments == [] then o
    else CommentPass(CommentsPass(o, comments[..|comments| - 1], pr, repo), comments[|comments| - 1], pr, repo)
  }

  /** process_reviews: the review cycles are recorded when there is at least one. */
  function CyclesPass(o: Org, pr: PullRequest, repo: string): Org
  {
    var cycles := ChangesRequested(pr.reviews);
    if cycles > 0 then
      var o1 := CyclesAtRepo(o, cycles, repo);
      o1.(review := o1.review.(cycles := o1.review.cycles + [cycles]))
    else o
  }

  function CyclesAtRepo(o: Org, cycles: int, repo: string): Org
  {
    var r := RepoOf(o.repositories, repo);
    WithRepo(o, repo, r.(review := r.review.(cycles := r.review.cycles + [cycles])))
  }

  /**
   * One review of process_reviews' loop: its author becomes a user; the
   * reviewer, the repository and the organisation review accumulators take
   * it; then update_collaboration_metrics runs with all the reviews.
   */
  function ReviewPass(o: Org, rv: Review, pr: PullRequest, repo: string): Org
  {
    if rv.user.None? then o
    else
      var o2 := RepoReviewed(UserReviewed(WithUser(o, rv.user.value, ""), rv, pr), rv, pr, repo);
      CollabPass(o2.(review := ReviewStep(o2.review, rv, pr)), pr, repo)
  }

  /** The reviewer's record takes the review. */
  function UserReviewed(o: Org, rv: Review, pr: PullRequest): Org
    requires rv.user.Some? && rv.user.value in o.users
  {
    var usr := o.users[rv.user.value];
    WithUserRecord(o, rv.user.value, usr.(review := ReviewStep(usr.review, rv, pr)))
  }

  /** The repository's record takes the review. */
  function RepoReviewed(o: Org, rv: Review, pr: PullRequest, repo: string): Org
  {
    var r := RepoOf(o.repositories, repo);
    WithRepo(o, repo, r.(review := ReviewStep(r.review, rv, pr)))
  }

  function ReviewsPass(o: Org, reviews: seq<Review>, pr: PullRequest, repo: string): Org
    decreases |reviews|
  {
    if reviews == [] then o
    else ReviewPass(ReviewsPass(o, reviews[..|reviews| - 1], pr, repo), reviews[|reviews| - 1], pr, repo)
  }

  /** The response time of every review: submitted minus created. */
  function ResponseTimes(reviews: seq<Review>, createdAt: int): (s: seq<int>)
    ensures |s| == |reviews|
    ensures forall i :: 0 <= i < |s| ==> s[i] == reviews[i].submittedAt - createdAt
  {
    if reviews == [] then []
    else ResponseTimes(reviews[..|reviews| - 1], createdAt) + [reviews[|reviews| - 1].submittedAt - createdAt]
  }

  /** The first-review wait, when there are reviews, and every review's response time. */
  function WaitStep(b: BottleneckTally, pr: PullRequest): BottleneckTally
  {
    b.(waitTimes := if pr.reviews != [] then b.waitTimes + [FirstSubmission(pr.reviews) - pr.createdAt] else b.waitTimes,
       responseTimes := b.responseTimes + ResponseTimes(pr.reviews, pr.createdAt))
  }

  function WaitPass(o: Org, pr: PullRequest, repo: string): Org
  {
    WaitAtRepo(o.(bottleneck := WaitStep(o.bottleneck, pr)), pr, repo)
  }

  function WaitAtRepo(o: Org, pr: PullRequest, repo: string): Org
  {
    var r := RepoOf(o.repositories, repo);
    WithRepo(o, repo, r.(bottleneck := WaitStep(r.bottleneck, pr)))
  }

  /** update_review_metrics. */
  function ReviewMetricsPass(o: Org, pr: PullRequest, repo: string): Org
  {
    var o1 := CommentsPass(ReceivedPass(o, pr), pr.reviewComments + pr.issueComments, pr, repo);
    WaitPass(ReviewsPass(CyclesPass(o1, pr, repo), pr.reviews, pr, repo), pr, repo)
  }

  // ---------------------------------------------------------------- update_time_metrics

  /** collect_pr_data: commits are only fetched for merged pull requests. */
  function FetchedCommits(pr: PullRequest): (cs: seq<Commit>)
    ensures !Merged(pr) ==> cs == []
    ensures Merged(pr) ==> cs == pr.commits
  {
    if Merged(pr) then pr.commits else []
  }

  /** The length of the reporting period in days, at least one. */
  function DaysInPeriod(start: int, end: int): (d: real)
    ensures d >= 1.0
    ensures end - start >= 86400 ==> d * 86400.0 == (end - start) as real
  {
    var days := (end - start) as real / 86400.0;
    if days >= 1.0 then days else 1.0
  }

  /** The merge of a merged pull request: time to merge, lead and cycle time from the first commit, the slot. */
  function MergeTimes(t: TimeTally, pr: PullRequest, first: Option<int>): TimeTally
    requires Merged(pr)
  {
    var merged := pr.mergedAt.value;
    t.(toMerge := t.toMerge + [merged - pr.createdAt],
       leadTimes := if first.Some? then t.leadTimes + [merged - first.value] else t.leadTimes,
       cycleTimes := if first.Some? then t.cycleTimes + [merged - first.value] else t.cycleTimes,
       distribution := Tick(t.distribution, merged))
  }

  /** The deployment frequency, replaced only when something was merged to the default branch. */
  function Deployment(t: TimeTally, mergedToMain: int, days: real): TimeTally
    requires days > 0.0
  {
    if mergedToMain > 0 then t.(deploymentFrequency := mergedToMain as real / days) else t
  }

  /** update_time_metrics. */
  function TimePass(o: Org, pr: PullRequest, commits: seq<Commit>, repo: string, start: int, end: int): Org
  {
    if !Merged(pr) then o
    else
      var first := if commits != [] then Some(FirstAuthorDate(commits)) else None;
      var toMain := pr.baseRef == RepoOf(o.repositories, repo).defaultBranch;
      var days := DaysInPeriod(start, end);
      var o1 := TimeAtRepo(o, pr, first, toMain, days, repo);
      var ot := MergeTimes(o1.time, pr, first);
      o1.(time := if toMain then Deployment(ot, o1.prsMergedToMain, days) else ot)
  }

  function TimeAtRepo(o: Org, pr: PullRequest, first: Option<int>, toMain: bool, days: real, repo: string): Org
    requires Merged(pr) && days > 0.0
  {
    var r := RepoOf(o.repositories, repo);
    var rt := MergeTimes(r.time, pr, first);
    WithRepo(o, repo, r.(time := if toMain then Deployment(rt, r.prsMergedToMain, days) else rt))
  }

  // ---------------------------------------------------------------- update_collaboration_metrics

  function Participation(c: CollabTally, prsCreated: int): CollabTally
  {
    if prsCreated > 0 then c.(participation := Ratio(c.team + c.crossTeam + c.external, prsCreated)) else c
  }

  /**
   * update_collaboration_metrics: with any review, one self-merge more at the
   * repository and the organisation; then both participation rates.
   */
  function CollabPass(o: Org, pr: PullRequest, repo: string): Org
  {
    var o1 := CollabAtRepo(o, pr, repo);
    var oc := if pr.reviews != [] then o1.collab.(selfMerges := o1.collab.selfMerges + 1) else o1.collab;
    o1.(collab := Participation(oc, o1.prsCreated))
  }

  function CollabAtRepo(o: Org, pr: PullRequest, repo: string): Org
  {
    var r := RepoOf(o.repositories, repo);
    var rc := if pr.reviews != [] then r.collab.(selfMerges := r.collab.selfMerges + 1) else r.collab;
    WithRepo(o, repo, r.(collab := Participation(rc, r.prsCreated)))
  }

  // ---------------------------------------------------------------- process_pr and process_repository_batch

  /** process_pr: code, reviews, times, collaboration. */
  function PrPass(o: Org, pr: PullRequest, repo: string, start: int, end: int): Org
  {
    var o1 := ReviewMetricsPass(CodePass(o, pr, repo), pr, repo);
    CollabPass(TimePass(o1, pr, FetchedCommits(pr), repo, start, end), pr, repo)
  }

  function PrsPass(o: Org, prs: seq<PullRequest>, repo: string, start: int, end: int): Org
    decreases |prs|
  {
    if prs == [] then o else PrPass(PrsPass(o, prs[..|prs| - 1], repo, start, end), prs[|prs| - 1], repo, start, end)
  }

  /**
   * What process_repository_batch does before the batches: the repository's
   * record with the repository's default branch, the pull-request counts at
   * the repository and the organisation, the contributors, and the
   * repository's last activity set to `now` when later.
   */
  function BatchSetup(o: Org, repo: string, defaultBranch: string, relevant: seq<PullRequest>, now: int): Org
  {
    var o1 := WithRepository(o, repo, "main");
    WithRepo(BatchCounts(o1, defaultBranch, relevant), repo, RepoSetup(o1.repositories[repo], defaultBranch, relevant, now))
  }

  /** The repository's record at the start of a batch. */
  function RepoSetup(r: Repo, defaultBranch: string, relevant: seq<PullRequest>, now: int): Repo
  {
    var r1 := r.(defaultBranch := defaultBranch,
                 prsCreated := r.prsCreated + |relevant|, prsMerged := r.prsMerged + MergedCount(relevant),
                 prsMergedToMain := r.prsMergedToMain + ToBranchCount(relevant, defaultBranch),
                 contributors := r.contributors + Authors(relevant));
    UpdateTimestamp(r1, None, now)
  }

  /** The organisation's counters at the start of a batch. */
  function BatchCounts(o: Org, defaultBranch: string, relevant: seq<PullRequest>): Org
  {
    o.(prsCreated := o.prsCreated + |relevant|, prsMerged := o.prsMerged + MergedCount(relevant),
       prsMergedToMain := o.prsMergedToMain + ToBranchCount(relevant, defaultBranch))
  }

  /** process_repository_batch on the pull requests `pulls` of repository `repo`. */
  function RepositoryBatch(o: Org, repo: string, defaultBranch: string, pulls: seq<PullRequest>,
                           start: int, end: int, userFilter: string, now: int): Org
  {
    var relevant := Relevant(pulls, start, end, userFilter);
    PrsPass(BatchSetup(o, repo, defaultBranch, relevant, now), relevant, repo, start, end)
  }

  // ---------------------------------------------------------------- what the passes keep

  /** The pull-request counters, which only the batch setup moves. */
  predicate SameCounters(a: Org, b: Org)
  {
    a.prsCreated == b.prsCreated && a.prsMerged == b.prsMerged
    && a.prsMergedToMain == b.prsMergedToMain && a.directMergesToMain == b.directMergesToMain
  }

  /** The review kinds of the organisation's collaboration accumulator. */
  predicate SameKinds(a: CollabTally, b: CollabTally)
  {
    a.team == b.team && a.crossTeam == b.crossTeam && a.external == b.external
  }

  /** What the passes never change in a repository record: everything but the accumulators. */
  predicate SameHeader(a: Repo, b: Repo)
  {
    a.name == b.name && a.defaultBranch == b.defaultBranch && a.contributors == b.contributors
    && a.teamsInvolved == b.teamsInvolved && a.prsCreated == b.prsCreated && a.prsMerged == b.prsMerged
    && a.prsMergedToMain == b.prsMergedToMain && a.directMergesToMain == b.directMergesToMain
    && a.lastUpdated == b.lastUpdated
  }

  /**
   * `b` has the records of `a`, `repo` and perhaps more users, and keeps the
   * relations; the other repositories' records are untouched and the header
   * of `repo`'s is kept.
   */
  ghost predicate Grows(a: Org, b: Org, repo: string)
  {
    OrgOk(b) && a.repositories.Keys <= b.repositories.Keys <= a.repositories.Keys + {repo} && a.users.Keys <= b.users.Keys
    && SameCounters(a, b) && b.name == a.name
    && (forall k :: k in a.repositories && k != repo ==> b.repositories[k] == a.repositories[k])
    && (repo in a.repositories ==> SameHeader(a.repositories[repo], b.repositories[repo]))
  }

  /** A repository record filed under its own name keeps the relations. */
  lemma WithRepoKeeps(o: Org, repo: string, r: Repo)
    requires OrgOk(o) && r.name == repo
    ensures OrgOk(WithRepo(o, repo, r))
  {
  }

  /** A user record that keeps its name and its team keeps the relations. */
  lemma WithUserRecordKeeps(o: Org, u: string, usr: User)
    requires OrgOk(o) && u in o.users && usr.username == u && usr.team == o.users[u].team
    ensures OrgOk(WithUserRecord(o, u, usr))
  {
    var o1 := WithUserRecord(o, u, usr);
    assert forall k :: k in o1.users ==> o1.users[k].team == o.users[k].team;
  }

  /**
   * A stage that changes only organisation-level accumulators and files a
   * new version of `repo`'s record with the same header grows the organisation.
   */
  lemma WithRepoGrows(o: Org, o1: Org, repo: string, r: Repo)
    requires OrgOk(o)
    requires o1.repositories == o.repositories && o1.users == o.users && o1.teams == o.teams
    requires SameCounters(o, o1) && o1.name == o.name
    requires r.name == repo && SameHeader(RepoOf(o.repositories, repo), r)
    ensures Grows(o, WithRepo(o1, repo, r), repo)
  {
    WithRepoKeeps(o1, repo, r);
  }

  lemma CommentPassGrows(o: Org, c: Comment, pr: PullRequest, repo: string)
    requires OrgOk(o)
    ensures Grows(o, CommentPass(o, c, pr, repo), repo)
    ensures c.user.Some? ==> c.user.value in CommentPass(o, c, pr, repo).users
  {
    if c.user.Some? {
      var u := c.user.value;
      WithUserKeeps(o, u, "");
      var o1 := WithUser(o, u, "");
      var usr := o1.users[u];
      var r := RepoOf(o1.repositories, repo);
      var o2 := WithUserRecord(o1, u, usr.(review := GaveComment(usr.review), collab := CommentsStep(usr.collab, [c], pr.number)));
      WithUserRecordKeeps(o1, u, usr.(review := GaveComment(usr.review), collab := CommentsStep(usr.collab, [c], pr.number)));
      WithRepoKeeps(o2.(review := GaveComment(o2.review), collab := CommentsStep(o2.collab, [c], pr.number)),
        repo, r.(review := GaveComment(r.review), collab := CommentsStep(r.collab, [c], pr.number)));
    }
  }

  lemma {:induction false} CommentsPassGrows(o: Org, comments: seq<Comment>, pr: PullRequest, repo: string)
    requires OrgOk(o)
    ensures Grows(o, CommentsPass(o, comments, pr, repo), repo)
    decreases |comments|
  {
    if comments != [] {
      var init := comments[..|comments| - 1];
      var mid := CommentsPass(o, init, pr, repo);
      CommentsPassGrows(o, init, pr, repo);
      CommentPassGrows(mid, comments[|comments| - 1], pr, repo);
      GrowsTrans(o, mid, CommentsPass(o, comments, pr, repo), repo);
    }
  }

  /** A comment keeps every user and makes its author one. */
  lemma CommentPassUsers(o: Org, c: Comment, pr: PullRequest, repo: string)
    ensures o.users.Keys <= CommentPass(o, c, pr, repo).users.Keys
    ensures c.user.Some? ==> c.user.value in CommentPass(o, c, pr, repo).users
  {
    if c.user.Some? {
      var o1 := WithUser(o, c.user.value, "");
      assert UserGave(o1, c, pr.number).users.Keys == o1.users.Keys;
    }
  }

  /** Every comment author becomes a user, and no user is dropped. */
  lemma {:induction false} CommentsPassUsers(o: Org, comments: seq<Comment>, pr: PullRequest, repo: string)
    ensures o.users.Keys <= CommentsPass(o, comments, pr, repo).users.Keys
    ensures forall i :: 0 <= i < |comments| && comments[i].user.Some? ==> comments[i].user.value in CommentsPass(o, comments, pr, repo).users
    decreases |comments|
  {
    if comments != [] {
      var init := comments[..|comments| - 1];
      var mid := CommentsPass(o, init, pr, repo);
      var fin := CommentsPass(o, comments, pr, repo);
      assert fin == CommentPass(mid, comments[|comments| - 1], pr, repo);
      CommentsPassUsers(o, init, pr, repo);
      CommentPassUsers(mid, comments[|comments| - 1], pr, repo);
      AuthorsCarried(comments, mid.users.Keys, fin.users.Keys);
    }
  }

  /** The authors of a prefix that stay users, and the last author, are all the authors. */
  lemma AuthorsCarried(comments: seq<Comment>, mid: set<string>, fin: set<string>)
    requires comments != [] && mid <= fin
    requires forall i :: 0 <= i < |comments| - 1 && comments[i].user.Some? ==> comments[i].user.value in mid
    requires comments[|comments| - 1].user.Some? ==> comments[|comments| - 1].user.value in fin
    ensures forall i :: 0 <= i < |comments| && comments[i].user.Some? ==> comments[i].user.value in fin
  {
  }

  lemma CodePassGrows(o: Org, pr: PullRequest, repo: string)
    requires OrgOk(o)
    ensures Grows(o, CodePass(o, pr, repo), repo)
    ensures repo in CodePass(o, pr, repo).repositories
  {
    var r := RepoOf(o.repositories, repo);
    WithRepoGrows(o, o.(code := CodeStep(o.code, pr)), repo, r.(code := CodeStep(r.code, pr)));
  }

  lemma CyclesPassGrows(o: Org, pr: PullRequest, repo: string)
    requires OrgOk(o)
    ensures Grows(o, CyclesPass(o, pr, repo), repo)
  {
    var r := RepoOf(o.repositories, repo);
    var cycles := ChangesRequested(pr.reviews);
    if cycles > 0 {
      var o1 := o.(review := o.review.(cycles := o.review.cycles + [cycles]));
      var r1 := r.(review := r.review.(cycles := r.review.cycles + [cycles]));
      assert CyclesPass(o, pr, repo) == WithRepo(o1, repo, r1);
      WithRepoGrows(o, o1, repo, r1);
    }
  }

  lemma CollabPassGrows(o: Org, pr: PullRequest, repo: string)
    requires OrgOk(o)
    ensures Grows(o, CollabPass(o, pr, repo), repo)
  {
    var r := RepoOf(o.repositories, repo);
    var rc := if pr.reviews != [] then r.collab.(selfMerges := r.collab.selfMerges + 1) else r.collab;
    var oc := if pr.reviews != [] then o.collab.(selfMerges := o.collab.selfMerges + 1) else o.collab;
    var o1 := o.(collab := Participation(oc, o.prsCreated));
    var r1 := r.(collab := Participation(rc, r.prsCreated));
    assert CollabPass(o, pr, repo) == WithRepo(o1, repo, r1);
    WithRepoGrows(o, o1, repo, r1);
  }

  lemma ReviewPassGrows(o: Org, rv: Review, pr: PullRequest, repo: string)
    requires OrgOk(o)
    ensures Grows(o, ReviewPass(o, rv, pr, repo), repo)
    ensures rv.user.Some? ==> rv.user.value in ReviewPass(o, rv, pr, repo).users
  {
    if rv.user.Some? {
      var o3 := ReviewRecordsGrow(o, rv, pr, repo);
      CollabPassGrows(o3, pr, repo);
      GrowsTrans(o, o3, ReviewPass(o, rv, pr, repo), repo);
    }
  }

  /** The review's records before update_collaboration_metrics. */
  lemma ReviewRecordsGrow(o: Org, rv: Review, pr: PullRequest, repo: string) returns (o3: Org)
    requires OrgOk(o) && rv.user.Some?
    ensures Grows(o, o3, repo) && rv.user.value in o3.users
    ensures ReviewPass(o, rv, pr, repo) == CollabPass(o3, pr, repo)
  {
    var u := rv.user.value;
    WithUserKeeps(o, u, "");
    var o1 := WithUser(o, u, "");
    var usr := o1.users[u];
    var r := RepoOf(o1.repositories, repo);
    var o2 := WithUserRecord(o1, u, usr.(review := ReviewStep(usr.review, rv, pr)));
    WithUserRecordKeeps(o1, u, usr.(review := ReviewStep(usr.review, rv, pr)));
    o3 := WithRepo(o2.(review := ReviewStep(o2.review, rv, pr)), repo, r.(review := ReviewStep(r.review, rv, pr)));
    WithRepoKeeps(o2.(review := ReviewStep(o2.review, rv, pr)), repo, r.(review := ReviewStep(r.review, rv, pr)));
  }

  lemma {:induction false} ReviewsPassGrows(o: Org, reviews: seq<Review>, pr: PullRequest, repo: string)
    requires OrgOk(o)
    ensures Grows(o, ReviewsPass(o, reviews, pr, repo), repo)
    decreases |reviews|
  {
    if reviews != [] {
      var init := reviews[..|reviews| - 1];
      var mid := ReviewsPass(o, init, pr, repo);
      ReviewsPassGrows(o, init, pr, repo);
      ReviewPassGrows(mid, reviews[|reviews| - 1], pr, repo);
      GrowsTrans(o, mid, ReviewsPass(o, reviews, pr, repo), repo);
    }
  }

  /** A review keeps every user and makes its author one. */
  lemma ReviewPassUsers(o: Org, rv: Review, pr: PullRequest, repo: string)
    ensures o.users.Keys <= ReviewPass(o, rv, pr, repo).users.Keys
    ensures rv.user.Some? ==> rv.user.value in ReviewPass(o, rv, pr, repo).users
  {
    if rv.user.Some? {
      var o1 := WithUser(o, rv.user.value, "");
      assert UserReviewed(o1, rv, pr).users.Keys == o1.users.Keys;
    }
  }

  /** Every reviewer becomes a user, and no user is dropped. */
  lemma {:induction false} ReviewsPassUsers(o: Org, reviews: seq<Review>, pr: PullRequest, repo: string)
    ensures o.users.Keys <= ReviewsPass(o, reviews, pr, repo).users.Keys
    ensures forall i :: 0 <= i < |reviews| && reviews[i].user.Some? ==> reviews[i].user.value in ReviewsPass(o, reviews, pr, repo).users
    decreases |reviews|
  {
    if reviews != [] {
      var init := reviews[..|reviews| - 1];
      var mid := ReviewsPass(o, init, pr, repo);
      var fin := ReviewsPass(o, reviews, pr, repo);
      assert fin == ReviewPass(mid, reviews[|reviews| - 1], pr, repo);
      ReviewsPassUsers(o, init, pr, repo);
      ReviewPassUsers(mid, reviews[|reviews| - 1], pr, repo);
      ReviewersCarried(reviews, mid.users.Keys, fin.users.Keys);
    }
  }

  /** The reviewers of a prefix that stay users, and the last reviewer, are all the reviewers. */
  lemma ReviewersCarried(reviews: seq<Review>, mid: set<string>, fin: set<string>)
    requires reviews != [] && mid <= fin
    requires forall i :: 0 <= i < |reviews| - 1 && reviews[i].user.Some? ==> reviews[i].user.value in mid
    requires reviews[|reviews| - 1].user.Some? ==> reviews[|reviews| - 1].user.value in fin
    ensures forall i :: 0 <= i < |reviews| && reviews[i].user.Some? ==> reviews[i].user.value in fin
  {
  }

  lemma WaitPassGrows(o: Org, pr: PullRequest, repo: string)
    requires OrgOk(o)
    ensures Grows(o, WaitPass(o, pr, repo), repo)
  {
    var r := RepoOf(o.repositories, repo);
    WithRepoGrows(o, o.(bottleneck := WaitStep(o.bottleneck, pr)), repo, r.(bottleneck := WaitStep(r.bottleneck, pr)));
  }

  lemma TimePassGrows(o: Org, pr: PullRequest, commits: seq<Commit>, repo: string, start: int, end: int)
    requires OrgOk(o)
    ensures Grows(o, TimePass(o, pr, commits, repo, start, end), repo)
  {
    if Merged(pr) {
      var first := if commits != [] then Some(FirstAuthorDate(commits)) else None;
      var r := RepoOf(o.repositories, repo);
      var days := DaysInPeriod(start, end);
      var toMain := pr.baseRef == r.defaultBranch;
      var rt := MergeTimes(r.time, pr, first);
      var ot := MergeTimes(o.time, pr, first);
      var o1 := o.(time := if toMain then Deployment(ot, o.prsMergedToMain, days) else ot);
      var r1 := r.(time := if toMain then Deployment(rt, r.prsMergedToMain, days) else rt);
      assert TimePass(o, pr, commits, repo, start, end) == WithRepo(o1, repo, r1);
      WithRepoGrows(o, o1, repo, r1);
    }
  }

  lemma GrowsTrans(a: Org, b: Org, c: Org, repo: string)
    requires Grows(a, b, repo) && Grows(b, c, repo)
    ensures Grows(a, c, repo)
  {
  }

  /**
   * process_pr keeps the organisation's relations, files the repository
   * record under its name, and leaves the pull-request counters, the other
   * repositories and the repository's header alone.
   */
  lemma PrPassGrows(o: Org, pr: PullRequest, repo: string, start: int, end: int)
    requires OrgOk(o)
    ensures Grows(o, PrPass(o, pr, repo, start, end), repo)
    ensures repo in PrPass(o, pr, repo, start, end).repositories
  {
    var comments := pr.reviewComments + pr.issueComments;
    var o1 := CodePass(o, pr, repo);
    CodePassGrows(o, pr, repo);
    var o2 := ReceivedPass(o1, pr);
    var o3, o5, o6, o7 := PrPassStages(o, pr, repo, start, end);
    CommentsPassGrows(o2, comments, pr, repo);
    GrowsTrans(o, o2, o3, repo);
    var o4 := CyclesPass(o3, pr, repo);
    CyclesPassGrows(o3, pr, repo);
    GrowsTrans(o, o3, o4, repo);
    ReviewsPassGrows(o4, pr.reviews, pr, repo);
    GrowsTrans(o, o4, o5, repo);
    WaitPassGrows(o5, pr, repo);
    GrowsTrans(o, o5, o6, repo);
    TimePassGrows(o6, pr, FetchedCommits(pr), repo, start, end);
    GrowsTrans(o, o6, o7, repo);
    CollabPassGrows(o7, pr, repo);
    GrowsTrans(o, o7, PrPass(o, pr, repo, start, end), repo);
  }

  /** process_pr makes every commenter and every reviewer a user. */
  lemma PrPassUsers(o: Org, pr: PullRequest, repo: string, start: int, end: int)
    ensures forall i :: 0 <= i < |pr.reviews| && pr.reviews[i].user.Some? ==> pr.reviews[i].user.value in PrPass(o, pr, repo, start, end).users
    ensures forall c :: c in pr.reviewComments + pr.issueComments && c.user.Some? ==> c.user.value in PrPass(o, pr, repo, start, end).users
  {
    var comments := pr.reviewComments + pr.issueComments;
    var o2 := ReceivedPass(CodePass(o, pr, repo), pr);
    var o3, o5, o6, o7 := PrPassStages(o, pr, repo, start, end);
    CommentsPassUsers(o2, comments, pr, repo);
    forall c | c in comments && c.user.Some? ensures c.user.value in o3.users {
      var i :| 0 <= i < |comments| && comments[i] == c;
    }
    var o4 := CyclesPass(o3, pr, repo);
    assert o4.users == o3.users;
    ReviewsPassUsers(o4, pr.reviews, pr, repo);
    assert o6.users == o5.users;
    assert o7.users == o6.users;
    assert PrPass(o, pr, repo, start, end).users == o7.users;
  }

  /** process_repository_batch's passes over all the relevant pull requests. */
  lemma {:induction false} PrsPassGrows(o: Org, prs: seq<PullRequest>, repo: string, start: int, end: int)
    requires OrgOk(o)
    ensures Grows(o, PrsPass(o, prs, repo, start, end), repo)
    ensures prs != [] ==> repo in PrsPass(o, prs, repo, start, end).repositories
    decreases |prs|
  {
    if prs != [] {
      var init := prs[..|prs| - 1];
      var mid := PrsPass(o, init, repo, start, end);
      PrsPassGrows(o, init, repo, start, end);
      PrPassGrows(mid, prs[|prs| - 1], repo, start, end);
      GrowsTrans(o, mid, PrsPass(o, prs, repo, start, end), repo);
    }
  }

  // ---------------------------------------------------------------- what the passes count

  /** Reviews with an author. */
  function UserReviews(reviews: seq<Review>): (n: nat)
    ensures n <= |reviews|
  {
    if reviews == [] then 0 else UserReviews(reviews[..|reviews| - 1]) + (if reviews[|reviews| - 1].user.Some? then 1 else 0)
  }

  /** Reviews with an author and a non-empty body. */
  function BodiedReviews(reviews: seq<Review>): (n: nat)
    ensures n <= UserReviews(reviews)
  {
    if reviews == [] then 0
    else BodiedReviews(reviews[..|reviews| - 1]) + (if reviews[|reviews| - 1].user.Some? && reviews[|reviews| - 1].body != "" then 1 else 0)
  }

  /** ReviewMetrics.update_from_review on each review in turn. */
  function ReviewsStep(t: ReviewTally, reviews: seq<Review>, pr: PullRequest): ReviewTally
    decreases |reviews|
  {
    if reviews == [] then t else ReviewStep(ReviewsStep(t, reviews[..|reviews| - 1], pr), reviews[|reviews| - 1], pr)
  }

  /**
   * A run of reviews keeps the review relations and counts one performed
   * review, and one wait, per review with an author.
   */
  lemma {:induction false} ReviewsStepCounts(t: ReviewTally, reviews: seq<Review>, pr: PullRequest)
    ensures ReviewTallyOk(t) ==> ReviewTallyOk(ReviewsStep(t, reviews, pr))
    ensures ReviewsStep(t, reviews, pr).performed == t.performed + UserReviews(reviews)
    ensures |ReviewsStep(t, reviews, pr).waitTimes| == |t.waitTimes| + UserReviews(reviews)
    ensures ReviewsStep(t, reviews, pr).commentsGiven == t.commentsGiven + BodiedReviews(reviews)
    ensures ReviewsStep(t, reviews, pr).commentsReceived == t.commentsReceived
    ensures ReviewsStep(t, reviews, pr).cycles == t.cycles
    decreases |reviews|
  {
    if reviews != [] {
      var init := reviews[..|reviews| - 1];
      ReviewsStepCounts(t, init, pr);
      if ReviewTallyOk(t) {
        ReviewStepKeeps(ReviewsStep(t, init, pr), reviews[|reviews| - 1], pr);
      }
    }
  }

  /** The organisation-level effect of the comment loop: comments given and comments per pull request. */
  lemma {:induction false} CommentsPassOrg(o: Org, comments: seq<Comment>, pr: PullRequest, repo: string)
    ensures var r := CommentsPass(o, comments, pr, repo);
      r.code == o.code && r.time == o.time && r.bottleneck == o.bottleneck && SameCounters(o, r)
      && r.review == o.review.(commentsGiven := o.review.commentsGiven + CommentsWithUser(comments))
      && r.collab == CommentsStep(o.collab, comments, pr.number)
    decreases |comments|
  {
    if comments != [] {
      var init := comments[..|comments| - 1];
      var c := comments[|comments| - 1];
      CommentsPassOrg(o, init, pr, repo);
      var mid := CommentsPass(o, init, pr, repo);
      assert [c][..0] == [];
      assert CommentsStep(mid.collab, [c], pr.number) == CommentStep(mid.collab, c, pr.number);
    }
  }

  /** The organisation-level effect of the review loop. */
  lemma {:induction false} ReviewsPassOrg(o: Org, reviews: seq<Review>, pr: PullRequest, repo: string)
    requires reviews <= pr.reviews
    ensures var r := ReviewsPass(o, reviews, pr, repo);
      r.code == o.code && r.time == o.time && r.bottleneck == o.bottleneck && SameCounters(o, r)
      && r.review == ReviewsStep(o.review, reviews, pr)
      && SameKinds(r.collab, o.collab) && r.collab.commentsPerPr == o.collab.commentsPerPr
      && r.collab.commentsByUser == o.collab.commentsByUser
      && r.collab.selfMerges == o.collab.selfMerges + UserReviews(reviews)
      && (o.prsCreated <= 0 ==> r.collab.participation == o.collab.participation)
    decreases |reviews|
  {
    if reviews != [] {
      var init := reviews[..|reviews| - 1];
      ReviewsPassOrg(o, init, pr, repo);
      ReviewPassOrg(ReviewsPass(o, init, pr, repo), reviews[|reviews| - 1], pr, repo);
    }
  }

  lemma ReviewPassOrg(o: Org, rv: Review, pr: PullRequest, repo: string)
    requires pr.reviews != []
    ensures var r := ReviewPass(o, rv, pr, repo);
      r.code == o.code && r.time == o.time && r.bottleneck == o.bottleneck && SameCounters(o, r)
      && r.review == ReviewStep(o.review, rv, pr)
      && SameKinds(r.collab, o.collab) && r.collab.commentsPerPr == o.collab.commentsPerPr
      && r.collab.commentsByUser == o.collab.commentsByUser
      && r.collab.selfMerges == o.collab.selfMerges + (if rv.user.Some? then 1 else 0)
      && (o.prsCreated <= 0 ==> r.collab.participation == o.collab.participation)
  {
  }

  /** The time accumulator's merge: as TimeMetrics.update_from_pr, with the cycle time equal to the lead time. */
  lemma MergeTimesIsStep(t: TimeTally, pr: PullRequest, first: Option<int>)
    requires Merged(pr)
    ensures var m := MergeTimes(t, pr, first);
      m.toMerge == TimeStep(t, pr, first).toMerge && m.leadTimes == TimeStep(t, pr, first).leadTimes
      && m.distribution == TimeStep(t, pr, first).distribution
      && (TimeTallyOk(t) ==> TimeTallyOk(m))
      && (t.cycleTimes == t.leadTimes ==> m.cycleTimes == m.leadTimes)
  {
    if TimeTallyOk(t) {
      TimeStepKeeps(t, pr, first);
    }
  }

  /** update_code_metrics and the pass it belongs to: exactly CodeMetrics.update_from_pr at the organisation. */
  lemma PrPassCode(o: Org, pr: PullRequest, repo: string, start: int, end: int)
    ensures PrPass(o, pr, repo, start, end).code == CodeStep(o.code, pr)
    ensures CodeTallyOk(o.code) ==> CodeTallyOk(PrPass(o, pr, repo, start, end).code)
  {
    var comments := pr.reviewComments + pr.issueComments;
    var o2 := ReceivedPass(CodePass(o, pr, repo), pr);
    CodePassOrg(o, pr, repo);
    var o3, o5, o6, o7 := PrPassStages(o, pr, repo, start, end);
    CommentsPassOrg(o2, comments, pr, repo);
    CyclesPassOrg(o3, pr, repo);
    ReviewsPassOrg(CyclesPass(o3, pr, repo), pr.reviews, pr, repo);
    WaitPassOrg(o5, pr, repo);
    TimePassOrg(o6, pr, FetchedCommits(pr), repo, start, end);
    CollabPassOrg(o7, pr, repo);
    if CodeTallyOk(o.code) {
      CodeStepKeeps(o.code, pr);
    }
  }

  /** The first-review wait is the smallest of the response times, and one of them. */
  lemma WaitIsFirstResponse(b: BottleneckTally, pr: PullRequest)
    requires pr.reviews != []
    ensures var w := WaitStep(b, pr);
      var resp := ResponseTimes(pr.reviews, pr.createdAt);
      |w.waitTimes| == |b.waitTimes| + 1 && w.responseTimes == b.responseTimes + resp
      && (exists i :: 0 <= i < |resp| && resp[i] == w.waitTimes[|b.waitTimes|])
      && forall i :: 0 <= i < |resp| ==> w.waitTimes[|b.waitTimes|] <= resp[i]
  {
    var first := FirstSubmission(pr.reviews);
    var i :| 0 <= i < |pr.reviews| && pr.reviews[i].submittedAt == first;
    assert ResponseTimes(pr.reviews, pr.createdAt)[i] == first - pr.createdAt;
  }

  // The organisation-level effect of each stage of process_pr.

  lemma CodePassOrg(o: Org, pr: PullRequest, repo: string)
    ensures var r := CodePass(o, pr, repo);
      r.code == CodeStep(o.code, pr) && r.review == o.review && r.time == o.time && r.collab == o.collab
      && r.bottleneck == o.bottleneck && SameCounters(o, r)
  {
  }

  lemma CyclesPassOrg(o: Org, pr: PullRequest, repo: string)
    ensures var r := CyclesPass(o, pr, repo);
      r.code == o.code && r.time == o.time && r.collab == o.collab && r.bottleneck == o.bottleneck && SameCounters(o, r)
      && r.review == o.review.(cycles := r.review.cycles)
      && |r.review.cycles| == |o.review.cycles| + (if ChangesRequested(pr.reviews) > 0 then 1 else 0)
  {
  }

  lemma WaitPassOrg(o: Org, pr: PullRequest, repo: string)
    ensures var r := WaitPass(o, pr, repo);
      r.code == o.code && r.review == o.review && r.time == o.time && r.collab == o.collab && SameCounters(o, r)
      && r.bottleneck == WaitStep(o.bottleneck, pr)
  {
  }

  lemma TimePassOrg(o: Org, pr: PullRequest, commits: seq<Commit>, repo: string, start: int, end: int)
    ensures var r := TimePass(o, pr, commits, repo, start, end);
      r.code == o.code && r.review == o.review && r.collab == o.collab && r.bottleneck == o.bottleneck && SameCounters(o, r)
      && |r.time.toMerge| == |o.time.toMerge| + (if Merged(pr) then 1 else 0)
      && (!Merged(pr) ==> r.time == o.time)
      && (TimeTallyOk(o.time) ==> TimeTallyOk(r.time))
  {
    if Merged(pr) {
      var first := if commits != [] then Some(FirstAuthorDate(commits)) else None;
      MergeTimesIsStep(o.time, pr, first);
    }
  }

  lemma CollabPassOrg(o: Org, pr: PullRequest, repo: string)
    ensures var r := CollabPass(o, pr, repo);
      r.code == o.code && r.review == o.review && r.time == o.time && r.bottleneck == o.bottleneck && SameCounters(o, r)
      && SameKinds(r.collab, o.collab) && r.collab.commentsPerPr == o.collab.commentsPerPr
      && r.collab.commentsByUser == o.collab.commentsByUser
      && r.collab.selfMerges == o.collab.selfMerges + (if pr.reviews != [] then 1 else 0)
      && (o.prsCreated > 0 ==> r.collab.participation == Ratio(o.collab.team + o.collab.crossTeam + o.collab.external, o.prsCreated))
  {
  }

  /** The stages of process_pr, named. */
  lemma PrPassStages(o: Org, pr: PullRequest, repo: string, start: int, end: int)
    returns (o3: Org, o5: Org, o6: Org, o7: Org)
    ensures var comments := pr.reviewComments + pr.issueComments;
      o3 == CommentsPass(ReceivedPass(CodePass(o, pr, repo), pr), comments, pr, repo)
      && o5 == ReviewsPass(CyclesPass(o3, pr, repo), pr.reviews, pr, repo)
      && o6 == WaitPass(o5, pr, repo)
      && o7 == TimePass(o6, pr, FetchedCommits(pr), repo, start, end)
      && PrPass(o, pr, repo, start, end) == CollabPass(o7, pr, repo)
  {
    o3 := CommentsPass(ReceivedPass(CodePass(o, pr, repo), pr), pr.reviewComments + pr.issueComments, pr, repo);
    o5 := ReviewsPass(CyclesPass(o3, pr, repo), pr.reviews, pr, repo);
    o6 := WaitPass(o5, pr, repo);
    o7 := TimePass(o6, pr, FetchedCommits(pr), repo, start, end);
  }

  /**
   * process_pr at the organisation's review accumulator: one performed review
   * per review with an author, every comment with an author given, the
   * review comments received, one cycle entry when changes were requested,
   * and the review relations kept.
   */
  lemma PrPassReview(o: Org, pr: PullRequest, repo: string, start: int, end: int)
    ensures var r := PrPass(o, pr, repo, start, end).review;
      r.performed == o.review.performed + UserReviews(pr.reviews)
      && r.commentsGiven == o.review.commentsGiven + CommentsWithUser(pr.reviewComments + pr.issueComments) + BodiedReviews(pr.reviews)
      && r.commentsReceived == o.review.commentsReceived + |pr.reviewComments|
      && |r.cycles| == |o.review.cycles| + (if ChangesRequested(pr.reviews) > 0 then 1 else 0)
      && (ReviewTallyOk(o.review) ==> ReviewTallyOk(r))
  {
    var comments := pr.reviewComments + pr.issueComments;
    var o2 := ReceivedPass(CodePass(o, pr, repo), pr);
    CodePassOrg(o, pr, repo);
    var o3, o5, o6, o7 := PrPassStages(o, pr, repo, start, end);
    CommentsPassOrg(o2, comments, pr, repo);
    CyclesPassOrg(o3, pr, repo);
    ReviewsPassOrg(CyclesPass(o3, pr, repo), pr.reviews, pr, repo);
    WaitPassOrg(o5, pr, repo);
    TimePassOrg(o6, pr, FetchedCommits(pr), repo, start, end);
    CollabPassOrg(o7, pr, repo);
    ReviewsStepCounts(CyclesPass(o3, pr, repo).review, pr.reviews, pr);
  }

  /** process_pr at the organisation's time accumulator: one merge more exactly for a merged pull request. */
  lemma PrPassTime(o: Org, pr: PullRequest, repo: string, start: int, end: int)
    ensures var r := PrPass(o, pr, repo, start, end).time;
      |r.toMerge| == |o.time.toMerge| + (if Merged(pr) then 1 else 0)
      && (!Merged(pr) ==> r == o.time)
      && (TimeTallyOk(o.time) ==> TimeTallyOk(r))
  {
    var comments := pr.reviewComments + pr.issueComments;
    var o2 := ReceivedPass(CodePass(o, pr, repo), pr);
    CodePassOrg(o, pr, repo);
    var o3, o5, o6, o7 := PrPassStages(o, pr, repo, start, end);
    CommentsPassOrg(o2, comments, pr, repo);
    CyclesPassOrg(o3, pr, repo);
    ReviewsPassOrg(CyclesPass(o3, pr, repo), pr.reviews, pr, repo);
    WaitPassOrg(o5, pr, repo);
    TimePassOrg(o6, pr, FetchedCommits(pr), repo, start, end);
    CollabPassOrg(o7, pr, repo);
  }

  /**
   * process_pr at the organisation's collaboration accumulator: the review
   * kinds other than self-merges never move, the self-merges grow by one per
   * review with an author plus one, and the participation rate is the
   * (unchanged) kinds over the pull requests created.
   */
  lemma PrPassCollab(o: Org, pr: PullRequest, repo: string, start: int, end: int)
    ensures SameKinds(PrPass(o, pr, repo, start, end).collab, o.collab)
    ensures PrPass(o, pr, repo, start, end).collab.selfMerges
      == o.collab.selfMerges + (if pr.reviews != [] then UserReviews(pr.reviews) + 1 else 0)
    ensures o.prsCreated > 0 ==>
      PrPass(o, pr, repo, start, end).collab.participation == Ratio(o.collab.team + o.collab.crossTeam + o.collab.external, o.prsCreated)
  {
    var o7 := BeforeCollabPass(o, pr, repo, start, end);
    CollabPassFrom(o, o7, PrPass(o, pr, repo, start, end), pr, repo);
  }

  /** The last update_collaboration_metrics pass, seen from the organisation before process_pr. */
  lemma CollabPassFrom(o: Org, o7: Org, r: Org, pr: PullRequest, repo: string)
    requires r == CollabPass(o7, pr, repo)
    requires SameKinds(o7.collab, o.collab) && o7.prsCreated == o.prsCreated
    requires o7.collab.selfMerges == o.collab.selfMerges + UserReviews(pr.reviews)
    ensures SameKinds(r.collab, o.collab)
    ensures r.collab.selfMerges == o.collab.selfMerges + (if pr.reviews != [] then UserReviews(pr.reviews) + 1 else 0)
    ensures o.prsCreated > 0 ==> r.collab.participation == Ratio(o.collab.team + o.collab.crossTeam + o.collab.external, o.prsCreated)
  {
    CollabPassOrg(o7, pr, repo);
  }

  /** The stages of process_pr before the last update_collaboration_metrics. */
  lemma BeforeCollabPass(o: Org, pr: PullRequest, repo: string, start: int, end: int) returns (o7: Org)
    ensures PrPass(o, pr, repo, start, end) == CollabPass(o7, pr, repo)
    ensures SameKinds(o7.collab, o.collab) && o7.prsCreated == o.prsCreated
    ensures o7.collab.selfMerges == o.collab.selfMerges + UserReviews(pr.reviews)
  {
    var comments := pr.reviewComments + pr.issueComments;
    var o2 := ReceivedPass(CodePass(o, pr, repo), pr);
    CodePassOrg(o, pr, repo);
    var o3, o5, o6;
    o3, o5, o6, o7 := PrPassStages(o, pr, repo, start, end);
    CommentsPassOrg(o2, comments, pr, repo);
    CommentsStepKinds(o2.collab, comments, pr.number);
    CyclesPassOrg(o3, pr, repo);
    ReviewsPassOrg(CyclesPass(o3, pr, repo), pr.reviews, pr, repo);
    WaitPassOrg(o5, pr, repo);
    TimePassOrg(o6, pr, FetchedCommits(pr), repo, start, end);
  }

  lemma PrPassComments(o: Org, pr: PullRequest, repo: string, start: int, end: int)
    ensures var r := PrPass(o, pr, repo, start, end).collab;
      CollabTallyOk(o.collab) ==>
        CollabTallyOk(r) && MapSum(r.commentsPerPr) == MapSum(o.collab.commentsPerPr) + CommentsWithUser(pr.reviewComments + pr.issueComments)
  {
    var comments := pr.reviewComments + pr.issueComments;
    var o2 := ReceivedPass(CodePass(o, pr, repo), pr);
    CodePassOrg(o, pr, repo);
    var o3, o5, o6, o7 := PrPassStages(o, pr, repo, start, end);
    CommentsPassOrg(o2, comments, pr, repo);
    CyclesPassOrg(o3, pr, repo);
    ReviewsPassOrg(CyclesPass(o3, pr, repo), pr.reviews, pr, repo);
    WaitPassOrg(o5, pr, repo);
    TimePassOrg(o6, pr, FetchedCommits(pr), repo, start, end);
    CollabPassOrg(o7, pr, repo);
    var r := PrPass(o, pr, repo, start, end).collab;
    assert r.commentsPerPr == o3.collab.commentsPerPr && r.commentsByUser == o3.collab.commentsByUser;
    if CollabTallyOk(o.collab) {
      CommentsStepKeeps(o2.collab, comments, pr.number);
      assert CollabCountsOk(o3.collab.commentsPerPr, o3.collab.commentsByUser);
    }
  }

  /** process_pr at the organisation's bottleneck accumulator: only the first-review wait and the response times. */
  lemma PrPassBottleneck(o: Org, pr: PullRequest, repo: string, start: int, end: int)
    ensures var r := PrPass(o, pr, repo, start, end).bottleneck;
      r.stale == o.bottleneck.stale && r.longRunning == o.bottleneck.longRunning
      && r.blocked == o.bottleneck.blocked && r.users == o.bottleneck.users
      && r.responseTimes == o.bottleneck.responseTimes + ResponseTimes(pr.reviews, pr.createdAt)
      && |r.waitTimes| == |o.bottleneck.waitTimes| + (if pr.reviews != [] then 1 else 0)
  {
    var comments := pr.reviewComments + pr.issueComments;
    var o2 := ReceivedPass(CodePass(o, pr, repo), pr);
    CodePassOrg(o, pr, repo);
    var o3, o5, o6, o7 := PrPassStages(o, pr, repo, start, end);
    CommentsPassOrg(o2, comments, pr, repo);
    CyclesPassOrg(o3, pr, repo);
    ReviewsPassOrg(CyclesPass(o3, pr, repo), pr.reviews, pr, repo);
    WaitPassOrg(o5, pr, repo);
    TimePassOrg(o6, pr, FetchedCommits(pr), repo, start, end);
    CollabPassOrg(o7, pr, repo);
  }

  /** Over a run of pull requests: one code sample each, one merge per merged one, all relations kept. */
  lemma {:induction false} PrsPassCounts(o: Org, prs: seq<PullRequest>, repo: string, start: int, end: int)
    ensures var r := PrsPass(o, prs, repo, start, end);
      |r.code.changes| == |o.code.changes| + |prs| && |r.time.toMerge| == |o.time.toMerge| + MergedCount(prs)
      && (CodeTallyOk(o.code) ==> CodeTallyOk(r.code)) && (TimeTallyOk(o.time) ==> TimeTallyOk(r.time))
    decreases |prs|
  {
    if prs != [] {
      var init := prs[..|prs| - 1];
      var mid := PrsPass(o, init, repo, start, end);
      PrsPassCounts(o, init, repo, start, end);
      PrPassCode(mid, prs[|prs| - 1], repo, start, end);
      PrPassTime(mid, prs[|prs| - 1], repo, start, end);
    }
  }

  /** process_pr leaves the pull-request counters alone: only the batch setup moves them. */
  lemma PrPassCounters(o: Org, pr: PullRequest, repo: string, start: int, end: int)
    ensures SameCounters(o, PrPass(o, pr, repo, start, end))
  {
    var comments := pr.reviewComments + pr.issueComments;
    var o2 := ReceivedPass(CodePass(o, pr, repo), pr);
    CodePassOrg(o, pr, repo);
    var o3, o5, o6, o7 := PrPassStages(o, pr, repo, start, end);
    CommentsPassOrg(o2, comments, pr, repo);
    CyclesPassOrg(o3, pr, repo);
    ReviewsPassOrg(CyclesPass(o3, pr, repo), pr.reviews, pr, repo);
    WaitPassOrg(o5, pr, repo);
    TimePassOrg(o6, pr, FetchedCommits(pr), repo, start, end);
    CollabPassOrg(o7, pr, repo);
  }

  lemma {:induction false} PrsPassCounters(o: Org, prs: seq<PullRequest>, repo: string, start: int, end: int)
    ensures SameCounters(o, PrsPass(o, prs, repo, start, end))
    decreases |prs|
  {
    if prs != [] {
      PrsPassCounters(o, prs[..|prs| - 1], repo, start, end);
      PrPassCounters(PrsPass(o, prs[..|prs| - 1], repo, start, end), prs[|prs| - 1], repo, start, end);
    }
  }

  /** Over a run of pull requests the review and comment relations hold and the review kinds stay. */
  lemma {:induction false} PrsPassKeeps(o: Org, prs: seq<PullRequest>, repo: string, start: int, end: int)
    ensures var r := PrsPass(o, prs, repo, start, end);
      SameKinds(r.collab, o.collab)
      && (ReviewTallyOk(o.review) ==> ReviewTallyOk(r.review)) && (CollabTallyOk(o.collab) ==> CollabTallyOk(r.collab))
    decreases |prs|
  {
    if prs != [] {
      var init := prs[..|prs| - 1];
      var mid := PrsPass(o, init, repo, start, end);
      PrsPassKeeps(o, init, repo, start, end);
      PrPassReview(mid, prs[|prs| - 1], repo, start, end);
      PrPassCollab(mid, prs[|prs| - 1], repo, start, end);
      PrPassComments(mid, prs[|prs| - 1], repo, start, end);
    }
  }

  /** The setup keeps the organisation's relations. */
  lemma BatchSetupKeeps(o: Org, repo: string, defaultBranch: string, relevant: seq<PullRequest>, now: int)
    requires OrgOk(o)
    ensures OrgOk(BatchSetup(o, repo, defaultBranch, relevant, now))
  {
    WithRepositoryKeeps(o, repo, "main");
    var o1 := WithRepository(o, repo, "main");
    WithRepoKeeps(BatchCounts(o1, defaultBranch, relevant), repo, RepoSetup(o1.repositories[repo], defaultBranch, relevant, now));
  }

  /**
   * The setup at the organisation: the repository is filed, the counters
   * grow by the relevant pull requests, their merges and their merges to
   * the default branch, and the users and the accumulators are untouched.
   */
  lemma BatchSetupOrg(o: Org, repo: string, defaultBranch: string, relevant: seq<PullRequest>, now: int)
    ensures var b := BatchSetup(o, repo, defaultBranch, relevant, now);
      repo in b.repositories && b.repositories.Keys == o.repositories.Keys + {repo}
      && b.users == o.users && b.code == o.code && b.review == o.review && b.time == o.time
      && b.collab == o.collab && b.bottleneck == o.bottleneck
      && b.prsCreated == o.prsCreated + |relevant| && b.prsMerged == o.prsMerged + MergedCount(relevant)
      && b.prsMergedToMain == o.prsMergedToMain + ToBranchCount(relevant, defaultBranch)
      && b.directMergesToMain == o.directMergesToMain
  {
    var o1 := WithRepository(o, repo, "main");
    assert o1.users == o.users && o1.code == o.code && o1.review == o.review && o1.time == o.time;
  }

  /** The setup files RepoSetup of the repository's record and leaves the other repositories alone. */
  lemma BatchSetupRecord(o: Org, repo: string, defaultBranch: string, relevant: seq<PullRequest>, now: int)
    ensures var b := BatchSetup(o, repo, defaultBranch, relevant, now);
      repo in b.repositories && b.repositories[repo] == RepoSetup(RepoOf(o.repositories, repo), defaultBranch, relevant, now)
    ensures var b := BatchSetup(o, repo, defaultBranch, relevant, now);
      forall k :: k in o.repositories && k != repo ==> b.repositories[k] == o.repositories[k]
  {
    assert WithRepository(o, repo, "main").repositories[repo] == RepoOf(o.repositories, repo);
  }

  /**
   * The repository's record at the start of a batch has the default branch,
   * counts the relevant pull requests, has their authors as contributors, and
   * its last activity is at least `now`.
   */
  lemma RepoSetupFacts(r: Repo, defaultBranch: string, relevant: seq<PullRequest>, now: int)
    ensures var s := RepoSetup(r, defaultBranch, relevant, now);
      s.name == r.name && s.defaultBranch == defaultBranch
      && s.prsCreated == r.prsCreated + |relevant| && s.prsMerged == r.prsMerged + MergedCount(relevant)
      && s.prsMergedToMain == r.prsMergedToMain + ToBranchCount(relevant, defaultBranch)
      && s.contributors == r.contributors + Authors(relevant)
      && s.lastUpdated.Some? && s.lastUpdated.value >= now
  {
    var r1 := r.(defaultBranch := defaultBranch,
                 prsCreated := r.prsCreated + |relevant|, prsMerged := r.prsMerged + MergedCount(relevant),
                 prsMergedToMain := r.prsMergedToMain + ToBranchCount(relevant, defaultBranch),
                 contributors := r.contributors + Authors(relevant));
    UpdateTimestampIsLatest(r1, None, now);
  }

  /**
   * process_repository_batch keeps the organisation's relations, and no
   * other repository's record changes.
   */
  lemma RepositoryBatchKeeps(o: Org, repo: string, defaultBranch: string, pulls: seq<PullRequest>,
                             start: int, end: int, userFilter: string, now: int)
    requires OrgOk(o)
    ensures OrgOk(RepositoryBatch(o, repo, defaultBranch, pulls, start, end, userFilter, now))
    ensures var r := RepositoryBatch(o, repo, defaultBranch, pulls, start, end, userFilter, now);
      forall k :: k in o.repositories && k != repo ==> k in r.repositories && r.repositories[k] == o.repositories[k]
  {
    var relevant := Relevant(pulls, start, end, userFilter);
    var b := BatchSetup(o, repo, defaultBranch, relevant, now);
    BatchSetupKeeps(o, repo, defaultBranch, relevant, now);
    BatchSetupOrg(o, repo, defaultBranch, relevant, now);
    BatchSetupRecord(o, repo, defaultBranch, relevant, now);
    PrsPassGrows(b, relevant, repo, start, end);
  }

  /**
   * process_repository_batch counts the relevant pull requests once each, its
   * merge counter grows by exactly the merges its time accumulator records,
   * the merges to the default branch are among them, and every relevant pull
   * request adds a code sample.
   */
  lemma RepositoryBatchCounts(o: Org, repo: string, defaultBranch: string, pulls: seq<PullRequest>,
                              start: int, end: int, userFilter: string, now: int)
    ensures var r := RepositoryBatch(o, repo, defaultBranch, pulls, start, end, userFilter, now);
      var relevant := Relevant(pulls, start, end, userFilter);
      r.prsCreated == o.prsCreated + |relevant| && r.prsMerged == o.prsMerged + MergedCount(relevant)
      && o.prsMergedToMain <= r.prsMergedToMain <= o.prsMergedToMain + (r.prsMerged - o.prsMerged)
      && |r.time.toMerge| == |o.time.toMerge| + (r.prsMerged - o.prsMerged)
      && |r.code.changes| == |o.code.changes| + |relevant|
  {
    var relevant := Relevant(pulls, start, end, userFilter);
    var b := BatchSetup(o, repo, defaultBranch, relevant, now);
    BatchSetupOrg(o, repo, defaultBranch, relevant, now);
    PrsPassCounts(b, relevant, repo, start, end);
    PrsPassCounters(b, relevant, repo, start, end);
  }

  /**
   * process_repository_batch leaves the repository's record with the default
   * branch, the authors as contributors, and a last activity no earlier than `now`.
   */
  lemma RepositoryBatchRecord(o: Org, repo: string, defaultBranch: string, pulls: seq<PullRequest>,
                              start: int, end: int, userFilter: string, now: int)
    requires OrgOk(o)
    ensures var r := RepositoryBatch(o, repo, defaultBranch, pulls, start, end, userFilter, now);
      repo in r.repositories && r.repositories[repo].defaultBranch == defaultBranch
      && Authors(Relevant(pulls, start, end, userFilter)) <= r.repositories[repo].contributors
      && r.repositories[repo].lastUpdated.Some? && r.repositories[repo].lastUpdated.value >= now
  {
    var relevant := Relevant(pulls, start, end, userFilter);
    var b := BatchSetup(o, repo, defaultBranch, relevant, now);
    BatchSetupKeeps(o, repo, defaultBranch, relevant, now);
    BatchSetupRecord(o, repo, defaultBranch, relevant, now);
    RepoSetupFacts(RepoOf(o.repositories, repo), defaultBranch, relevant, now);
    PrsPassGrows(b, relevant, repo, start, end);
  }

  // ---------------------------------------------------------------- the passes on the organisation object

  /** update_code_metrics. */
  method UpdateCodeMetrics(org: OrganizationMetrics, pr: PullRequest, repo: string)
    modifies org`code, org`repositories
    ensures org.State() == CodePass(old(org.State()), pr, repo)
  {
    org.code := CodeStep(org.code, pr);
    var r := RepoOf(org.repositories, repo);
    org.repositories := org.repositories[repo := r.(code := CodeStep(r.code, pr))];
  }

  /** One comment of update_review_metrics' loop. */
  method CountCommentGiven(org: OrganizationMetrics, c: Comment, pr: PullRequest, repo: string)
    requires org.Valid()
    modifies org
    ensures org.Valid()
    ensures org.State() == CommentPass(old(org.State()), c, pr, repo)
  {
    CommentPassGrows(org.State(), c, pr, repo);
    if c.user.Some? {
      org.GetOrCreateUser(c.user.value, "");
      CreditCommenter(org, c, pr.number);
      CreditRepoComment(org, c, pr.number, repo);
      CreditOrgComment(org, c, pr.number);
    }
  }

  method CreditOrgComment(org: OrganizationMetrics, c: Comment, n: int)
    modifies org`review, org`collab
    ensures org.State() == old(org.State()).(review := GaveComment(old(org.review)), collab := CommentsStep(old(org.collab), [c], n))
  {
    org.review := GaveComment(org.review);
    org.collab := CommentsStep(org.collab, [c], n);
  }

  method CreditCommenter(org: OrganizationMetrics, c: Comment, n: int)
    requires c.user.Some? && c.user.value in org.users
    modifies org`users
    ensures org.State() == UserGave(old(org.State()), c, n)
  {
    var usr := org.users[c.user.value];
    org.users := org.users[c.user.value := usr.(review := GaveComment(usr.review), collab := CommentsStep(usr.collab, [c], n))];
  }

  method CreditRepoComment(org: OrganizationMetrics, c: Comment, n: int, repo: string)
    modifies org`repositories
    ensures org.State() == RepoGave(old(org.State()), c, n, repo)
  {
    var r := RepoOf(org.repositories, repo);
    org.repositories := org.repositories[repo := r.(review := GaveComment(r.review), collab := CommentsStep(r.collab, [c], n))];
  }

  /** update_collaboration_metrics; the team branch never runs, the users having no team attribute. */
  method UpdateCollaborationMetrics(org: OrganizationMetrics, pr: PullRequest, repo: string)
    modifies org`repositories, org`collab
    ensures org.State() == CollabPass(old(org.State()), pr, repo)
  {
    CollabAtRepository(org, pr, repo);
    if pr.reviews != [] {
      org.collab := org.collab.(selfMerges := org.collab.selfMerges + 1);
    }
    if org.prsCreated > 0 {
      org.collab := org.collab.(participation := Ratio(org.collab.team + org.collab.crossTeam + org.collab.external, org.prsCreated));
    }
  }

  method CollabAtRepository(org: OrganizationMetrics, pr: PullRequest, repo: string)
    modifies org`repositories
    ensures org.State() == CollabAtRepo(old(org.State()), pr, repo)
  {
    var r := RepoOf(org.repositories, repo);
    var rc := r.collab;
    if pr.reviews != [] {
      rc := rc.(selfMerges := rc.selfMerges + 1);
    }
    if r.prsCreated > 0 {
      rc := rc.(participation := Ratio(rc.team + rc.crossTeam + rc.external, r.prsCreated));
    }
    org.repositories := org.repositories[repo := r.(collab := rc)];
  }

  /** One review of process_reviews' loop, with the update_collaboration_metrics call inside it. */
  method CountReview(org: OrganizationMetrics, rv: Review, pr: PullRequest, repo: string)
    requires org.Valid()
    modifies org
    ensures org.Valid()
    ensures org.State() == ReviewPass(old(org.State()), rv, pr, repo)
  {
    ReviewPassGrows(org.State(), rv, pr, repo);
    if rv.user.Some? {
      org.GetOrCreateUser(rv.user.value, "");
      CreditReviewer(org, rv, pr);
      CreditRepoReview(org, rv, pr, repo);
      CreditOrgReview(org, rv, pr);
      UpdateCollaborationMetrics(org, pr, repo);
    }
  }

  method CreditOrgReview(org: OrganizationMetrics, rv: Review, pr: PullRequest)
    modifies org`review
    ensures org.State() == old(org.State()).(review := ReviewStep(old(org.review), rv, pr))
  {
    org.review := ReviewStep(org.review, rv, pr);
  }

  method CreditReviewer(org: OrganizationMetrics, rv: Review, pr: PullRequest)
    requires rv.user.Some? && rv.user.value in org.users
    modifies org`users
    ensures org.State() == UserReviewed(old(org.State()), rv, pr)
  {
    var usr := org.users[rv.user.value];
    org.users := org.users[rv.user.value := usr.(review := ReviewStep(usr.review, rv, pr))];
  }

  method CreditRepoReview(org: OrganizationMetrics, rv: Review, pr: PullRequest, repo: string)
    modifies org`repositories
    ensures org.State() == RepoReviewed(old(org.State()), rv, pr, repo)
  {
    var r := RepoOf(org.repositories, repo);
    org.repositories := org.repositories[repo := r.(review := ReviewStep(r.review, rv, pr))];
  }

  /** The review cycles of process_reviews, recorded when there is at least one. */
  method RecordCycles(org: OrganizationMetrics, pr: PullRequest, repo: string)
    modifies org`repositories, org`review
    ensures org.State() == CyclesPass(old(org.State()), pr, repo)
  {
    var cycles := ChangesRequested(pr.reviews);
    if cycles > 0 {
      var r := RepoOf(org.repositories, repo);
      org.repositories := org.repositories[repo := r.(review := r.review.(cycles := r.review.cycles + [cycles]))];
      org.review := org.review.(cycles := org.review.cycles + [cycles]);
    }
  }

  /** process_reviews: the review cycles, then every review in turn. */
  method ProcessReviews(org: OrganizationMetrics, pr: PullRequest, repo: string)
    requires org.Valid()
    modifies org
    ensures org.Valid()
    ensures org.State() == ReviewsPass(CyclesPass(old(org.State()), pr, repo), pr.reviews, pr, repo)
  {
    CyclesPassGrows(org.State(), pr, repo);
    RecordCycles(org, pr, repo);
    CountReviews(org, pr, repo);
  }

  /** process_reviews' loop over the reviews. */
  method CountReviews(org: OrganizationMetrics, pr: PullRequest, repo: string)
    requires org.Valid()
    modifies org
    ensures org.Valid()
    ensures org.State() == ReviewsPass(old(org.State()), pr.reviews, pr, repo)
  {
    var i := 0;
    while i < |pr.reviews|
      invariant 0 <= i <= |pr.reviews|
      invariant org.Valid()
      invariant org.State() == ReviewsPass(old(org.State()), pr.reviews[..i], pr, repo)
    {
      assert pr.reviews[..i + 1][..i] == pr.reviews[..i];
      CountReview(org, pr.reviews[i], pr, repo);
      i := i + 1;
    }
    assert pr.reviews[..i] == pr.reviews;
  }

  /** The first-review wait, when there are reviews, then the response time of every review. */
  method ReviewWaits(b: BottleneckTally, pr: PullRequest) returns (w: BottleneckTally)
    ensures w == WaitStep(b, pr)
  {
    w := b;
    if pr.reviews != [] {
      w := w.(waitTimes := w.waitTimes + [FirstSubmission(pr.reviews) - pr.createdAt]);
    }
    ghost var w1 := w;
    var i := 0;
    while i < |pr.reviews|
      invariant 0 <= i <= |pr.reviews|
      invariant w.responseTimes == w1.responseTimes + ResponseTimes(pr.reviews[..i], pr.createdAt)
      invariant w == w1.(responseTimes := w.responseTimes)
    {
      assert pr.reviews[..i + 1][..i] == pr.reviews[..i];
      w := w.(responseTimes := w.responseTimes + [pr.reviews[i].submittedAt - pr.createdAt]);
      i := i + 1;
    }
    assert pr.reviews[..i] == pr.reviews;
  }

  /** The waits at the organisation and at the repository. */
  method RecordWaits(org: OrganizationMetrics, pr: PullRequest, repo: string)
    modifies org`repositories, org`bottleneck
    ensures org.State() == WaitPass(old(org.State()), pr, repo)
  {
    org.bottleneck := ReviewWaits(org.bottleneck, pr);
    var r := RepoOf(org.repositories, repo);
    var rb := ReviewWaits(r.bottleneck, pr);
    org.repositories := org.repositories[repo := r.(bottleneck := rb)];
  }

  method CountReceived(org: OrganizationMetrics, pr: PullRequest)
    modifies org`review
    ensures org.State() == ReceivedPass(old(org.State()), pr)
  {
    org.review := org.review.(commentsReceived := org.review.commentsReceived + |pr.reviewComments|);
  }

  /** update_review_metrics' loop over the review and issue comments. */
  method CountComments(org: OrganizationMetrics, comments: seq<Comment>, pr: PullRequest, repo: string)
    requires org.Valid()
    modifies org
    ensures org.Valid()
    ensures org.State() == CommentsPass(old(org.State()), comments, pr, repo)
  {
    var i := 0;
    while i < |comments|
      invariant 0 <= i <= |comments|
      invariant org.Valid()
      invariant org.State() == CommentsPass(old(org.State()), comments[..i], pr, repo)
    {
      assert comments[..i + 1][..i] == comments[..i];
      CountCommentGiven(org, comments[i], pr, repo);
      i := i + 1;
    }
    assert comments[..i] == comments;
  }

  /** update_review_metrics. */
  method UpdateReviewMetrics(org: OrganizationMetrics, pr: PullRequest, repo: string)
    requires org.Valid()
    modifies org
    ensures org.Valid()
    ensures org.State() == ReviewMetricsPass(old(org.State()), pr, repo)
  {
    CountReceived(org, pr);
    CountComments(org, pr.reviewComments + pr.issueComments, pr, repo);
    ProcessReviews(org, pr, repo);
    WaitPassGrows(org.State(), pr, repo);
    RecordWaits(org, pr, repo);
  }

  /** The merge's entries in a time accumulator, one statement per entry as update_time_metrics writes them. */
  method RecordMergeTimes(t: TimeTally, pr: PullRequest, first: Option<int>) returns (m: TimeTally)
    requires Merged(pr)
    ensures m == MergeTimes(t, pr, first)
  {
    var merged := pr.mergedAt.value;
    m := t.(toMerge := t.toMerge + [merged - pr.createdAt]);
    if first.Some? {
      m := m.(leadTimes := m.leadTimes + [merged - first.value]);
      m := m.(cycleTimes := m.cycleTimes + [merged - first.value]);
    }
    m := m.(distribution := Tick(m.distribution, merged));
  }

  /** update_time_metrics. */
  method UpdateTimeMetrics(org: OrganizationMetrics, pr: PullRequest, commits: seq<Commit>, repo: string, start: int, end: int)
    modifies org`repositories, org`time
    ensures org.State() == TimePass(old(org.State()), pr, commits, repo, start, end)
  {
    if Merged(pr) {
      var first := if commits != [] then Some(FirstAuthorDate(commits)) else None;
      var toMain := pr.baseRef == RepoOf(org.repositories, repo).defaultBranch;
      var days := DaysInPeriod(start, end);
      TimeAtRepository(org, pr, first, toMain, days, repo);
      var ot := RecordMergeTimes(org.time, pr, first);
      if toMain && org.prsMergedToMain > 0 {
        ot := ot.(deploymentFrequency := org.prsMergedToMain as real / days);
      }
      SetTime(org, ot);
    }
  }

  method SetTime(org: OrganizationMetrics, t: TimeTally)
    modifies org`time
    ensures org.State() == old(org.State()).(time := t)
  {
    org.time := t;
  }

  method TimeAtRepository(org: OrganizationMetrics, pr: PullRequest, first: Option<int>, toMain: bool, days: real, repo: string)
    requires Merged(pr) && days > 0.0
    modifies org`repositories
    ensures org.State() == TimeAtRepo(old(org.State()), pr, first, toMain, days, repo)
  {
    var r := RepoOf(org.repositories, repo);
    var rt := RecordMergeTimes(r.time, pr, first);
    if toMain && r.prsMergedToMain > 0 {
      rt := rt.(deploymentFrequency := r.prsMergedToMain as real / days);
    }
    org.repositories := org.repositories[repo := r.(time := rt)];
  }

  /** process_pr, its four updates run one after the other. */
  method ProcessPr(org: OrganizationMetrics, pr: PullRequest, repo: string, start: int, end: int)
    requires org.Valid()
    modifies org
    ensures org.Valid()
    ensures org.State() == PrPass(old(org.State()), pr, repo, start, end)
  {
    var commits := FetchedCommits(pr);
    CodePassGrows(org.State(), pr, repo);
    UpdateCodeMetrics(org, pr, repo);
    UpdateReviewMetrics(org, pr, repo);
    TimePassGrows(org.State(), pr, commits, repo, start, end);
    UpdateTimeMetrics(org, pr, commits, repo, start, end);
    CollabPassGrows(org.State(), pr, repo);
    UpdateCollaborationMetrics(org, pr, repo);
  }

  /** The contributor loop of process_repository_batch; the team guard never holds. */
  method AddContributors(contributors: set<string>, relevant: seq<PullRequest>) returns (c: set<string>)
    ensures c == contributors + Authors(relevant)
  {
    c := contributors;
    var i := 0;
    while i < |relevant|
      invariant 0 <= i <= |relevant|
      invariant c == contributors + Authors(relevant[..i])
    {
      assert relevant[..i + 1][..i] == relevant[..i];
      c := c + {relevant[i].author};
      i := i + 1;
    }
    assert relevant[..i] == relevant;
  }

  /** What process_repository_batch does before the batches. */
  method SetUpBatch(org: OrganizationMetrics, repo: string, defaultBranch: string, relevant: seq<PullRequest>, now: int)
    requires org.Valid()
    modifies org
    ensures org.Valid()
    ensures org.State() == BatchSetup(old(org.State()), repo, defaultBranch, relevant, now)
  {
    BatchSetupKeeps(org.State(), repo, defaultBranch, relevant, now);
    org.GetOrCreateRepository(repo, "main");
    var r := SetUpRepository(org.repositories[repo], defaultBranch, relevant, now);
    CountBatch(org, defaultBranch, relevant);
    StoreRepository(org, repo, r);
  }

  /** The repository's side of the setup, one statement per update of the source. */
  method SetUpRepository(r: Repo, defaultBranch: string, relevant: seq<PullRequest>, now: int) returns (s: Repo)
    ensures s == RepoSetup(r, defaultBranch, relevant, now)
  {
    s := r.(defaultBranch := defaultBranch);
    s := s.(prsCreated := s.prsCreated + |relevant|);
    s := s.(prsMerged := s.prsMerged + MergedCount(relevant));
    s := s.(prsMergedToMain := s.prsMergedToMain + ToBranchCount(relevant, s.defaultBranch));
    var contributors := AddContributors(s.contributors, relevant);
    s := s.(contributors := contributors);
    s := UpdateTimestamp(s, None, now);
  }

  /** The organisation's side of the setup. */
  method CountBatch(org: OrganizationMetrics, defaultBranch: string, relevant: seq<PullRequest>)
    modifies org`prsCreated, org`prsMerged, org`prsMergedToMain
    ensures org.State() == BatchCounts(old(org.State()), defaultBranch, relevant)
  {
    org.prsCreated := org.prsCreated + |relevant|;
    org.prsMerged := org.prsMerged + MergedCount(relevant);
    org.prsMergedToMain := org.prsMergedToMain + ToBranchCount(relevant, defaultBranch);
  }

  method StoreRepository(org: OrganizationMetrics, repo: string, r: Repo)
    modifies org`repositories
    ensures org.State() == WithRepo(old(org.State()), repo, r)
  {
    org.repositories := org.repositories[repo := r];
  }

  lemma PrsPassNext(o: Org, prs: seq<PullRequest>, j: nat, repo: string, start: int, end: int)
    requires j < |prs|
    ensures PrsPass(o, prs[..j + 1], repo, start, end) == PrPass(PrsPass(o, prs[..j], repo, start, end), prs[j], repo, start, end)
  {
    assert prs[..j + 1][..j] == prs[..j];
  }

  /** Processing two runs of pull requests one after the other is processing their concatenation. */
  lemma {:induction false} PrsPassConcat(o: Org, a: seq<PullRequest>, b: seq<PullRequest>, repo: string, start: int, end: int)
    ensures PrsPass(PrsPass(o, a, repo, start, end), b, repo, start, end) == PrsPass(o, a + b, repo, start, end)
    decreases |b|
  {
    if b == [] {
      assert a + b == a;
    } else {
      var b' := b[..|b| - 1];
      assert (a + b)[..|a + b| - 1] == a + b';
      assert (a + b)[|a + b| - 1] == b[|b| - 1];
      PrsPassConcat(o, a, b', repo, start, end);
    }
  }

  /** One batch: process_pr on each pull request of `batch`, in order. */
  method ProcessBatch(org: OrganizationMetrics, batch: seq<PullRequest>, repo: string, start: int, end: int)
    requires org.Valid()
    modifies org
    ensures org.Valid()
    ensures org.State() == PrsPass(old(org.State()), batch, repo, start, end)
  {
    ghost var before := org.State();
    var k := 0;
    while k < |batch|
      invariant 0 <= k <= |batch|
      invariant org.Valid()
      invariant org.State() == PrsPass(before, batch[..k], repo, start, end)
    {
      PrsPassNext(before, batch, k, repo, start, end);
      ProcessPr(org, batch[k], repo, start, end);
      k := k + 1;
    }
    assert batch[..k] == batch;
  }

  /** process_repository_batch on the pull requests `pulls` of repository `repo` at instant `now`. */
  method ProcessRepositoryBatch(org: OrganizationMetrics, repo: string, defaultBranch: string, pulls: seq<PullRequest>,
                                start: int, end: int, userFilter: string, now: int)
    requires org.Valid()
    modifies org
    ensures org.Valid()
    ensures org.State() == RepositoryBatch(old(org.State()), repo, defaultBranch, pulls, start, end, userFilter, now)
  {
    var relevant := Relevant(pulls, start, end, userFilter);
    SetUpBatch(org, repo, defaultBranch, relevant, now);
    ProcessBatches(org, relevant, repo, start, end);
  }

  /** The batches of BatchSize pull requests, one after the other. */
  method ProcessBatches(org: OrganizationMetrics, relevant: seq<PullRequest>, repo: string, start: int, end: int)
    requires org.Valid()
    modifies org
    ensures org.Valid()
    ensures org.State() == PrsPass(old(org.State()), relevant, repo, start, end)
  {
    ghost var setup := org.State();
    var i := 0;
    while i < |relevant|
      invariant 0 <= i <= |relevant|
      invariant org.Valid()
      invariant org.State() == PrsPass(setup, relevant[..i], repo, start, end)
    {
      var hi := if i + BatchSize <= |relevant| then i + BatchSize else |relevant|;
      ProcessBatchAt(org, relevant, i, hi, repo, start, end, setup);
      i := hi;
    }
    assert relevant[..i] == relevant;
  }

  /** The batch relevant[lo..hi], continuing the run of the earlier batches from `setup`. */
  method ProcessBatchAt(org: OrganizationMetrics, relevant: seq<PullRequest>, lo: nat, hi: nat, repo: string,
                        start: int, end: int, ghost setup: Org)
    requires lo <= hi <= |relevant|
    requires org.Valid() && org.State() == PrsPass(setup, relevant[..lo], repo, start, end)
    modifies org
    ensures org.Valid() && org.State() == PrsPass(setup, relevant[..hi], repo, start, end)
  {
    BatchJoin(setup, relevant, lo, hi, repo, start, end);
    ProcessBatch(org, relevant[lo..hi], repo, start, end);
  }

  lemma BatchJoin(o: Org, prs: seq<PullRequest>, lo: nat, hi: nat, repo: string, start: int, end: int)
    requires lo <= hi <= |prs|
    ensures PrsPass(PrsPass(o, prs[..lo], repo, start, end), prs[lo..hi], repo, start, end) == PrsPass(o, prs[..hi], repo, start, end)
  {
    SliceJoin(prs, lo, hi);
    PrsPassConcat(o, prs[..lo], prs[lo..hi], repo, start, end);
  }

  lemma SliceJoin(prs: seq<PullRequest>, lo: nat, hi: nat)
    requires lo <= hi <= |prs|
    ensures prs[..lo] + prs[lo..hi] == prs[..hi]
  {
  }
}

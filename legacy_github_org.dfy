// The older organisation records (wellcode_cli/github/models/metrics.py):
// RepositoryMetrics, UserMetrics and OrganizationMetrics as they were before
// the pull-request counters moved up to the organisation. The five
// accumulators are the same classes as in the newer file, so their values and
// steps come from GithubAccumulators. What this file adds is the
// repository-to-organisation rollup, aggregate_metrics, which walks the
// repositories in insertion order; Python dictionaries keep that order, and
// the model keeps it next to the map as the sequence `order`.

module LegacyGithubOrg {
  import opened Common
  import opened GithubData
  import opened GithubAccumulators

  /**
   * The five accumulators that a repository, a person and the organisation
   * each carry: review_metrics, code_metrics, time_metrics,
   * collaboration_metrics and bottleneck_metrics.
   */
  datatype Tallies = Tallies(
    review: ReviewTally, code: CodeTally, time: TimeTally, collab: CollabTally, bottleneck: BottleneckTally)

  const EmptyTallies := Tallies(EmptyReviewTally, EmptyCodeTally, EmptyTimeTally, EmptyCollabTally, EmptyBottleneckTally)

  /** RepositoryMetrics: no direct-merge counter, and a last activity that is always set. */
  datatype Repo = Repo(
    name: string, defaultBranch: string, prsCreated: int, prsMerged: int, prsMergedToMain: int,
    metrics: Tallies, contributors: set<string>, teamsInvolved: set<string>, lastUpdated: int)

  /** A new record; last_updated defaults to the instant it is created. */
  function NewRepo(name: string, defaultBranch: string, now: int): Repo
  {
    Repo(name, defaultBranch, 0, 0, 0, EmptyTallies, {}, {}, now)
  }

  /** UserMetrics, with the bottleneck accumulator the older passes update. */
  datatype User = User(username: string, team: string, prsCreated: int, prsMerged: int, metrics: Tallies)

  function NewUser(username: string, team: string): User
  {
    User(username, team, 0, 0, EmptyTallies)
  }

  /**
   * RepositoryMetrics.update_timestamp takes no argument here: a call with
   * arguments is a TypeError (None), and without one the last activity
   * becomes the current instant.
   */
  function CallUpdateTimestamp(r: Repo, args: seq<int>, now: int): (u: Option<Repo>)
    ensures u.Some? <==> args == []
    ensures u.Some? ==> u.value == r.(lastUpdated := now)
  {
    if args != [] then None else Some(r.(lastUpdated := now))
  }

  datatype Org = Org(
    name: string, repositories: map<string, Repo>, order: seq<string>, users: map<string, User>,
    teams: map<string, set<string>>, metrics: Tallies)

  function NewOrg(name: string): Org
  {
    Org(name, map[], [], map[], map[], EmptyTallies)
  }

  /** The insertion order lists every repository exactly once. */
  ghost predicate OrderOk(repositories: map<string, Repo>, order: seq<string>)
  {
    (forall i, j :: 0 <= i < j < |order| ==> order[i] != order[j])
    && (forall k :: k in repositories <==> k in order)
  }

  function Members(teams: map<string, set<string>>, team: string): set<string>
  {
    if team in teams then teams[team] else {}
  }

  /** Every team member is a user recorded with that team, and "" is never a team. */
  ghost predicate TeamsOk(teams: map<string, set<string>>, users: map<string, User>)
  {
    "" !in teams
    && forall t, u :: t in teams && u in teams[t] ==> u in users && users[u].team == t
  }

  ghost predicate RecordsOk(repositories: map<string, Repo>, users: map<string, User>)
  {
    (forall k :: k in repositories ==> repositories[k].name == k)
    && (forall k :: k in users ==> users[k].username == k)
  }

  ghost predicate OrgOk(o: Org)
  {
    OrderOk(o.repositories, o.order) && TeamsOk(o.teams, o.users) && RecordsOk(o.repositories, o.users)
  }

  /** get_or_create_repository: a new record goes to the end of the order, an existing one is kept. */
  function WithRepository(o: Org, name: string, defaultBranch: string, now: int): (r: Org)
    ensures name in r.repositories
    ensures r.repositories.Keys == o.repositories.Keys + {name}
    ensures name in o.repositories ==> r == o
    ensures name !in o.repositories ==>
      r.repositories[name] == NewRepo(name, defaultBranch, now) && r.order == o.order + [name]
    ensures r == o.(repositories := r.repositories, order := r.order)
  {
    if name in o.repositories then o
    else o.(repositories := o.repositories[name := NewRepo(name, defaultBranch, now)], order := o.order + [name])
  }

  /** A second call returns the record of the first, whatever branch and instant it is given. */
  lemma WithRepositoryIdempotent(o: Org, name: string, defaultBranch: string, now: int, branch': string, now': int)
    ensures WithRepository(WithRepository(o, name, defaultBranch, now), name, branch', now')
      == WithRepository(o, name, defaultBranch, now)
  {
  }

  lemma WithRepositoryKeeps(o: Org, name: string, defaultBranch: string, now: int)
    requires OrgOk(o)
    ensures OrgOk(WithRepository(o, name, defaultBranch, now))
  {
    if name !in o.repositories {
      var r := WithRepository(o, name, defaultBranch, now);
      assert name !in o.order;
      forall i, j | 0 <= i < j < |r.order| ensures r.order[i] != r.order[j] {
        if j == |o.order| {
          assert r.order[i] == o.order[i];
        } else {
          assert r.order[i] == o.order[i] && r.order[j] == o.order[j];
        }
      }
      forall k ensures k in r.repositories <==> k in r.order {
        assert k in r.order <==> k in o.order || k == name;
      }
    }
  }

  /** get_or_create_user: a new user joins its team when the team is not "". */
  function WithUser(o: Org, username: string, team: string): (r: Org)
    ensures username in r.users
    ensures r.users.Keys == o.users.Keys + {username}
    ensures username in o.users ==> r == o
    ensures username !in o.users ==> r.users[username] == NewUser(username, team)
    ensures r == o.(users := r.users, teams := r.teams)
  {
    if username in o.users then o
    else
      o.(users := o.users[username := NewUser(username, team)],
         teams := if team != "" then o.teams[team := Members(o.teams, team) + {username}] else o.teams)
  }

  lemma WithUserIdempotent(o: Org, username: string, team: string, team': string)
    ensures WithUser(WithUser(o, username, team), username, team') == WithUser(o, username, team)
  {
  }

  lemma WithUserKeeps(o: Org, username: string, team: string)
    requires OrgOk(o)
    ensures OrgOk(WithUser(o, username, team))
    ensures team != "" && username !in o.users ==> username in WithUser(o, username, team).teams[team]
  {
    if username !in o.users {
      var r := WithUser(o, username, team);
      forall t, u | t in r.teams && u in r.teams[t]
        ensures u in r.users && r.users[u].team == t
      {
        if t == team && u == username {
        } else if t == team {
          assert u in o.teams[t];
        } else {
          assert r.teams[t] == o.teams[t];
        }
      }
    }
  }

  datatype RepoStats = RepoStats(
    name: string, prsCreated: int, prsMerged: int, contributorsCount: int, teamsInvolved: int,
    avgTimeToMerge: real, avgReviewTime: real, hotfixes: int, reverts: int, lastUpdated: int)

  /** get_repository_stats: an empty answer (None) for an unknown repository. */
  function RepositoryStats(o: Org, name: string): (s: Option<RepoStats>)
    ensures s.None? <==> name !in o.repositories
    ensures s.Some? ==> var r := o.repositories[name];
      s.value.name == r.name && s.value.prsCreated == r.prsCreated && s.value.prsMerged == r.prsMerged
      && s.value.contributorsCount == |r.contributors| && s.value.teamsInvolved == |r.teamsInvolved|
      && s.value.hotfixes == r.metrics.code.hotfixes && s.value.reverts == r.metrics.code.reverts
      && s.value.lastUpdated == r.lastUpdated
      && (r.metrics.time.toMerge != [] ==> s.value.avgTimeToMerge * (|r.metrics.time.toMerge| as real) == Sum(r.metrics.time.toMerge) as real)
      && (r.metrics.review.waitTimes != [] ==> s.value.avgReviewTime * (|r.metrics.review.waitTimes| as real) == Sum(r.metrics.review.waitTimes) as real)
      && (r.metrics.time.toMerge == [] ==> s.value.avgTimeToMerge == 0.0)
      && (r.metrics.review.waitTimes == [] ==> s.value.avgReviewTime == 0.0)
  {
    if name !in o.repositories then None
    else
      var r := o.repositories[name];
      Some(RepoStats(r.name, r.prsCreated, r.prsMerged, |r.contributors|, |r.teamsInvolved|,
        Mean(r.metrics.time.toMerge), Mean(r.metrics.review.waitTimes), r.metrics.code.hotfixes, r.metrics.code.reverts, r.lastUpdated))
  }

  // ---------------------------------------------------------------- aggregate_metrics

  /** The repositories in the order the rollup visits them. */
  function ReposOf(repositories: map<string, Repo>, order: seq<string>): (rs: seq<Repo>)
    requires forall i :: 0 <= i < |order| ==> order[i] in repositories
    ensures |rs| == |order|
    ensures forall i :: 0 <= i < |order| ==> rs[i] == repositories[order[i]]
  {
    if order == [] then [] else ReposOf(repositories, order[..|order| - 1]) + [repositories[order[|order| - 1]]]
  }

  /** Adds one repository's code counters and extends the org's lists with its lists. */
  function AddCode(c: CodeTally, r: Repo): CodeTally
  {
    c.(changes := c.changes + r.metrics.code.changes, files := c.files + r.metrics.code.files, commits := c.commits + r.metrics.code.commits,
       reverts := c.reverts + r.metrics.code.reverts, hotfixes := c.hotfixes + r.metrics.code.hotfixes,
       additions := c.additions + r.metrics.code.additions, deletions := c.deletions + r.metrics.code.deletions)
  }

  /** The review counters and lists; reviewers_per_pr and the comments received stay as they are. */
  function AddReview(t: ReviewTally, r: Repo): ReviewTally
  {
    t.(performed := t.performed + r.metrics.review.performed, blocking := t.blocking + r.metrics.review.blocking,
       commentsGiven := t.commentsGiven + r.metrics.review.commentsGiven,
       firstReview := t.firstReview + r.metrics.review.firstReview, cycles := t.cycles + r.metrics.review.cycles,
       waitTimes := t.waitTimes + r.metrics.review.waitTimes)
  }

  /** The merge distribution adds key by key. */
  function AddDistribution(d: Distribution, e: Distribution): Distribution
  {
    Distribution(d.businessHours + e.businessHours, d.afterHours + e.afterHours, d.weekends + e.weekends)
  }

  /** The time lists are extended; the deployment frequency stays. */
  function AddTime(t: TimeTally, r: Repo): TimeTally
  {
    t.(toMerge := t.toMerge + r.metrics.time.toMerge, leadTimes := t.leadTimes + r.metrics.time.leadTimes,
       cycleTimes := t.cycleTimes + r.metrics.time.cycleTimes, distribution := AddDistribution(t.distribution, r.metrics.time.distribution))
  }

  function RollCode(c: CodeTally, rs: seq<Repo>): CodeTally
  {
    if rs == [] then c else AddCode(RollCode(c, rs[..|rs| - 1]), rs[|rs| - 1])
  }

  function RollReview(t: ReviewTally, rs: seq<Repo>): ReviewTally
  {
    if rs == [] then t else AddReview(RollReview(t, rs[..|rs| - 1]), rs[|rs| - 1])
  }

  function RollTime(t: TimeTally, rs: seq<Repo>): TimeTally
  {
    if rs == [] then t else AddTime(RollTime(t, rs[..|rs| - 1]), rs[|rs| - 1])
  }

  /** aggregate_metrics on the value: the organisation's code, review and time accumulators take every repository's. */
  function Aggregate(o: Org): Org
    requires forall i :: 0 <= i < |o.order| ==> o.order[i] in o.repositories
  {
    var rs := ReposOf(o.repositories, o.order);
    o.(metrics := o.metrics.(code := RollCode(o.metrics.code, rs), review := RollReview(o.metrics.review, rs),
                             time := RollTime(o.metrics.time, rs)))
  }

  /** The sum of an integer field over the repositories. */
  function TotalOf(rs: seq<Repo>, f: Repo -> int): int
  {
    if rs == [] then 0 else TotalOf(rs[..|rs| - 1], f) + f(rs[|rs| - 1])
  }

  /** A list field of every repository, concatenated in order. */
  function ConcatOf(rs: seq<Repo>, f: Repo -> seq<int>): seq<int>
  {
    if rs == [] then [] else ConcatOf(rs[..|rs| - 1], f) + f(rs[|rs| - 1])
  }

  /** The code counters grow by the repositories' totals and the lists by their lists, in order. */
  lemma {:induction false} RollCodeSums(c: CodeTally, rs: seq<Repo>)
    ensures var r := RollCode(c, rs);
      r.additions == c.additions + TotalOf(rs, (x: Repo) => x.metrics.code.additions)
      && r.deletions == c.deletions + TotalOf(rs, (x: Repo) => x.metrics.code.deletions)
      && r.reverts == c.reverts + TotalOf(rs, (x: Repo) => x.metrics.code.reverts)
      && r.hotfixes == c.hotfixes + TotalOf(rs, (x: Repo) => x.metrics.code.hotfixes)
      && r.changes == c.changes + ConcatOf(rs, (x: Repo) => x.metrics.code.changes)
      && r.files == c.files + ConcatOf(rs, (x: Repo) => x.metrics.code.files)
      && r.commits == c.commits + ConcatOf(rs, (x: Repo) => x.metrics.code.commits)
      && r.avgSize == c.avgSize
    decreases |rs|
  {
    if rs != [] {
      RollCodeSums(c, rs[..|rs| - 1]);
    }
  }

  lemma {:induction false} RollReviewSums(t: ReviewTally, rs: seq<Repo>)
    ensures var r := RollReview(t, rs);
      r.performed == t.performed + TotalOf(rs, (x: Repo) => x.metrics.review.performed)
      && r.blocking == t.blocking + TotalOf(rs, (x: Repo) => x.metrics.review.blocking)
      && r.commentsGiven == t.commentsGiven + TotalOf(rs, (x: Repo) => x.metrics.review.commentsGiven)
      && r.firstReview == t.firstReview + ConcatOf(rs, (x: Repo) => x.metrics.review.firstReview)
      && r.cycles == t.cycles + ConcatOf(rs, (x: Repo) => x.metrics.review.cycles)
      && r.waitTimes == t.waitTimes + ConcatOf(rs, (x: Repo) => x.metrics.review.waitTimes)
      && r.commentsReceived == t.commentsReceived && r.reviewers == t.reviewers
    decreases |rs|
  {
    if rs != [] {
      RollReviewSums(t, rs[..|rs| - 1]);
    }
  }

  lemma {:induction false} RollTimeSums(t: TimeTally, rs: seq<Repo>)
    ensures var r := RollTime(t, rs);
      r.toMerge == t.toMerge + ConcatOf(rs, (x: Repo) => x.metrics.time.toMerge)
      && r.leadTimes == t.leadTimes + ConcatOf(rs, (x: Repo) => x.metrics.time.leadTimes)
      && r.cycleTimes == t.cycleTimes + ConcatOf(rs, (x: Repo) => x.metrics.time.cycleTimes)
      && r.distribution.businessHours == t.distribution.businessHours + TotalOf(rs, (x: Repo) => x.metrics.time.distribution.businessHours)
      && r.distribution.afterHours == t.distribution.afterHours + TotalOf(rs, (x: Repo) => x.metrics.time.distribution.afterHours)
      && r.distribution.weekends == t.distribution.weekends + TotalOf(rs, (x: Repo) => x.metrics.time.distribution.weekends)
      && DistributionTotal(r.distribution) == DistributionTotal(t.distribution) + TotalOf(rs, (x: Repo) => DistributionTotal(x.metrics.time.distribution))
      && r.deploymentFrequency == t.deploymentFrequency
    decreases |rs|
  {
    if rs != [] {
      RollTimeSums(t, rs[..|rs| - 1]);
    }
  }

  /** Rolling up repositories whose code records are consistent keeps the organisation's consistent. */
  lemma {:induction false} RollCodeKeeps(c: CodeTally, rs: seq<Repo>)
    requires CodeTallyOk(c)
    requires forall i :: 0 <= i < |rs| ==> CodeTallyOk(rs[i].metrics.code)
    ensures CodeTallyOk(RollCode(c, rs))
    decreases |rs|
  {
    if rs != [] {
      var init := RollCode(c, rs[..|rs| - 1]);
      RollCodeKeeps(c, rs[..|rs| - 1]);
      SumConcat(init.changes, rs[|rs| - 1].metrics.code.changes);
    }
  }

  lemma {:induction false} RollTimeKeeps(t: TimeTally, rs: seq<Repo>)
    requires TimeTallyOk(t)
    requires forall i :: 0 <= i < |rs| ==> TimeTallyOk(rs[i].metrics.time)
    ensures TimeTallyOk(RollTime(t, rs))
    decreases |rs|
  {
    if rs != [] {
      RollTimeKeeps(t, rs[..|rs| - 1]);
    }
  }

  /**
   * aggregate_metrics is not idempotent: the repositories are left as they
   * are, so a second call adds their totals once more.
   */
  lemma AggregateTwice(o: Org)
    requires forall i :: 0 <= i < |o.order| ==> o.order[i] in o.repositories
    ensures var rs := ReposOf(o.repositories, o.order);
      Aggregate(Aggregate(o)).metrics.code.additions == o.metrics.code.additions + 2 * TotalOf(rs, (x: Repo) => x.metrics.code.additions)
      && Aggregate(Aggregate(o)).metrics.review.performed == o.metrics.review.performed + 2 * TotalOf(rs, (x: Repo) => x.metrics.review.performed)
  {
    var rs := ReposOf(o.repositories, o.order);
    var a := Aggregate(o);
    assert a.repositories == o.repositories && a.order == o.order;
    RollCodeSums(o.metrics.code, rs);
    RollCodeSums(a.metrics.code, rs);
    RollReviewSums(o.metrics.review, rs);
    RollReviewSums(a.metrics.review, rs);
  }

  /** A repository with code changes makes the second rollup differ from the first. */
  lemma AggregateNotIdempotent(o: Org)
    requires forall i :: 0 <= i < |o.order| ==> o.order[i] in o.repositories
    requires TotalOf(ReposOf(o.repositories, o.order), (x: Repo) => x.metrics.code.additions) != 0
    ensures Aggregate(Aggregate(o)) != Aggregate(o)
  {
    var rs := ReposOf(o.repositories, o.order);
    AggregateTwice(o);
    RollCodeSums(o.metrics.code, rs);
  }

  /** The rollup leaves collaboration, bottlenecks, users, teams and the repositories themselves alone. */
  lemma AggregateUntouched(o: Org)
    requires forall i :: 0 <= i < |o.order| ==> o.order[i] in o.repositories
    ensures var a := Aggregate(o);
      a.metrics.collab == o.metrics.collab && a.metrics.bottleneck == o.metrics.bottleneck
      && a.users == o.users && a.teams == o.teams && a.repositories == o.repositories && a.order == o.order
      && a.metrics.review.commentsReceived == o.metrics.review.commentsReceived
      && a.metrics.review.reviewers == o.metrics.review.reviewers
  {
    RollReviewSums(o.metrics.review, ReposOf(o.repositories, o.order));
  }

  // ---------------------------------------------------------------- the organisation object

  class LegacyOrganizationMetrics {
    const name: string
    var repositories: map<string, Repo>
    var order: seq<string>
    var users: map<string, User>
    var teams: map<string, set<string>>
    var review: ReviewTally
    var code: CodeTally
    var time: TimeTally
    var collab: CollabTally
    var bottleneck: BottleneckTally

    function State(): Org
      reads this
    {
      Org(name, repositories, order, users, teams, Tallies(review, code, time, collab, bottleneck))
    }

    ghost predicate Valid()
      reads this
    {
      OrderOk(repositories, order) && TeamsOk(teams, users) && RecordsOk(repositories, users)
    }

    /** A fresh OrganizationMetrics has no repository, user or team. */
    constructor (name: string)
      ensures State() == NewOrg(name) && Valid()
    {
      this.name := name;
      repositories, order, users, teams := map[], [], map[], map[];
      review, code, time, collab, bottleneck := EmptyReviewTally, EmptyCodeTally, EmptyTimeTally, EmptyCollabTally, EmptyBottleneckTally;
    }

    method GetOrCreateRepository(repoName: string, defaultBranch: string, now: int)
      requires Valid()
      modifies this`repositories, this`order
      ensures Valid()
      ensures State() == WithRepository(old(State()), repoName, defaultBranch, now)
    {
      WithRepositoryKeeps(State(), repoName, defaultBranch, now);
      if repoName !in repositories {
        repositories := repositories[repoName := NewRepo(repoName, defaultBranch, now)];
        order := order + [repoName];
      }
    }

    method GetOrCreateUser(username: string, team: string)
      requires Valid()
      modifies this`users, this`teams
      ensures Valid()
      ensures State() == WithUser(old(State()), username, team)
    {
      WithUserKeeps(State(), username, team);
      if username !in users {
        users := users[username := NewUser(username, team)];
        if team != "" {
          teams := teams[team := (if team in teams then teams[team] else {}) + {username}];
        }
      }
    }

    /** get_all_contributors: the union of every repository's contributors. */
    method GetAllContributors() returns (all: set<string>)
      requires Valid()
      ensures forall u :: u in all <==> exists k :: k in repositories && u in repositories[k].contributors
    {
      all := {};
      var i := 0;
      while i < |order|
        invariant 0 <= i <= |order|
        invariant forall u :: u in all <==> exists j :: 0 <= j < i && u in repositories[order[j]].contributors
      {
        all := all + repositories[order[i]].contributors;
        i := i + 1;
      }
      forall u ensures u in all <==> exists k :: k in repositories && u in repositories[k].contributors {
        if u in all {
          var j :| 0 <= j < i && u in repositories[order[j]].contributors;
          assert order[j] in repositories;
        }
        if exists k :: k in repositories && u in repositories[k].contributors {
          var k :| k in repositories && u in repositories[k].contributors;
          assert k in order;
          var j :| 0 <= j < |order| && order[j] == k;
        }
      }
    }

    /** aggregate_metrics: one pass over the repositories in insertion order. */
    method AggregateMetrics()
      requires Valid()
      modifies this`code, this`review, this`time
      ensures State() == Aggregate(old(State()))
    {
      ghost var rs := ReposOf(repositories, order);
      var i := 0;
      while i < |order|
        invariant 0 <= i <= |order|
        invariant code == RollCode(old(code), rs[..i])
        invariant review == RollReview(old(review), rs[..i])
        invariant time == RollTime(old(time), rs[..i])
      {
        RollNext(old(code), old(review), old(time), rs, i);
        AddRepository(repositories[order[i]]);
        i := i + 1;
      }
      assert rs[..i] == rs;
    }

    /** One repository of the rollup. */
    method AddRepository(r: Repo)
      modifies this`code, this`review, this`time
      ensures code == AddCode(old(code), r) && review == AddReview(old(review), r) && time == AddTime(old(time), r)
    {
      code := code.(changes := code.changes + r.metrics.code.changes, files := code.files + r.metrics.code.files,
        commits := code.commits + r.metrics.code.commits, reverts := code.reverts + r.metrics.code.reverts,
        hotfixes := code.hotfixes + r.metrics.code.hotfixes, additions := code.additions + r.metrics.code.additions,
        deletions := code.deletions + r.metrics.code.deletions);
      review := review.(performed := review.performed + r.metrics.review.performed,
        blocking := review.blocking + r.metrics.review.blocking, commentsGiven := review.commentsGiven + r.metrics.review.commentsGiven,
        firstReview := review.firstReview + r.metrics.review.firstReview, cycles := review.cycles + r.metrics.review.cycles,
        waitTimes := review.waitTimes + r.metrics.review.waitTimes);
      var d := time.distribution;
      var e := r.metrics.time.distribution;
      time := time.(toMerge := time.toMerge + r.metrics.time.toMerge, leadTimes := time.leadTimes + r.metrics.time.leadTimes,
        cycleTimes := time.cycleTimes + r.metrics.time.cycleTimes,
        distribution := Distribution(d.businessHours + e.businessHours, d.afterHours + e.afterHours, d.weekends + e.weekends));
    }
  }

  /** One more repository of the rollup. */
  lemma RollNext(c: CodeTally, t: ReviewTally, u: TimeTally, rs: seq<Repo>, i: nat)
    requires i < |rs|
    ensures RollCode(c, rs[..i + 1]) == AddCode(RollCode(c, rs[..i]), rs[i])
    ensures RollReview(t, rs[..i + 1]) == AddReview(RollReview(t, rs[..i]), rs[i])
    ensures RollTime(u, rs[..i + 1]) == AddTime(RollTime(u, rs[..i]), rs[i])
  {
    assert rs[..i + 1][..i] == rs[..i];
  }
}

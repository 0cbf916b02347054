// The per-repository, per-user and organisation records of the GitHub report
// (src/wellcode_cli/github/models/metrics.py, RepositoryMetrics, UserMetrics
// and OrganizationMetrics). The organisation is a class whose dictionaries
// get_or_create_repository and get_or_create_user extend in place; the records
// it holds, and its own five accumulators, are values updated by the
// accumulators' `...Step` functions.

module GithubOrg {
  import opened Common
  import opened GithubData
  import opened GithubAccumulators

  datatype Repo = Repo(
    name: string, defaultBranch: string,
    code: CodeTally, review: ReviewTally, time: TimeTally, collab: CollabTally, bottleneck: BottleneckTally,
    contributors: set<string>, teamsInvolved: set<string>,
    prsCreated: int, prsMerged: int, prsMergedToMain: int, directMergesToMain: int,
    lastUpdated: Option<int>)

  function NewRepo(name: string, defaultBranch: string): Repo
  {
    Repo(name, defaultBranch, EmptyCodeTally, EmptyReviewTally, EmptyTimeTally, EmptyCollabTally,
      EmptyBottleneckTally, {}, {}, 0, 0, 0, 0, None)
  }

  datatype User = User(
    username: string, team: string, prsCreated: int, prsMerged: int,
    code: CodeTally, review: ReviewTally, time: TimeTally, collab: CollabTally)

  function NewUser(username: string, team: string): User
  {
    User(username, team, 0, 0, EmptyCodeTally, EmptyReviewTally, EmptyTimeTally, EmptyCollabTally)
  }

  /** RepositoryMetrics.update_teams: only non-empty team names are added. */
  function UpdateTeams(r: Repo, authorTeam: string, reviewerTeam: string): (u: Repo)
    ensures u == r.(teamsInvolved := u.teamsInvolved)
    ensures r.teamsInvolved <= u.teamsInvolved
    ensures forall t :: t in u.teamsInvolved - r.teamsInvolved ==> t != "" && (t == authorTeam || t == reviewerTeam)
    ensures authorTeam != "" ==> authorTeam in u.teamsInvolved
    ensures reviewerTeam != "" ==> reviewerTeam in u.teamsInvolved
  {
    var withAuthor := if authorTeam != "" then r.teamsInvolved + {authorTeam} else r.teamsInvolved;
    r.(teamsInvolved := if reviewerTeam != "" then withAuthor + {reviewerTeam} else withAuthor)
  }

  /** Adding the same teams again changes nothing. */
  lemma UpdateTeamsIdempotent(r: Repo, authorTeam: string, reviewerTeam: string)
    ensures UpdateTeams(UpdateTeams(r, authorTeam, reviewerTeam), authorTeam, reviewerTeam) == UpdateTeams(r, authorTeam, reviewerTeam)
  {
  }

  /**
   * RepositoryMetrics.update_timestamp: the given instant, or `now` without
   * one, replaces the last activity only when there is none yet or it is later.
   */
  function UpdateTimestamp(r: Repo, timestamp: Option<int>, now: int): (u: Repo)
    ensures u == r.(lastUpdated := u.lastUpdated)
    ensures u.lastUpdated.Some?
  {
    var t := if timestamp.Some? then timestamp.value else now;
    if r.lastUpdated.None? || t > r.lastUpdated.value then r.(lastUpdated := Some(t)) else r
  }

  function Latest(a: int, b: int): int
  {
    if a >= b then a else b
  }

  /** The last activity becomes the later of the old one and the new instant: it never moves back. */
  lemma UpdateTimestampIsLatest(r: Repo, timestamp: Option<int>, now: int)
    ensures var t := if timestamp.Some? then timestamp.value else now;
      UpdateTimestamp(r, timestamp, now).lastUpdated.value == (if r.lastUpdated.Some? then Latest(r.lastUpdated.value, t) else t)
    ensures r.lastUpdated.Some? ==> UpdateTimestamp(r, timestamp, now).lastUpdated.value >= r.lastUpdated.value
    ensures UpdateTimestamp(UpdateTimestamp(r, timestamp, now), timestamp, now) == UpdateTimestamp(r, timestamp, now)
  {
  }

  /** The whole organisation as a value. */
  datatype Org = Org(
    name: string, repositories: map<string, Repo>, users: map<string, User>, teams: map<string, set<string>>,
    review: ReviewTally, code: CodeTally, time: TimeTally, collab: CollabTally, bottleneck: BottleneckTally,
    prsCreated: int, prsMerged: int, prsMergedToMain: int, directMergesToMain: int)

  function NewOrg(name: string): Org
  {
    Org(name, map[], map[], map[], EmptyReviewTally, EmptyCodeTally, EmptyTimeTally, EmptyCollabTally,
      EmptyBottleneckTally, 0, 0, 0, 0)
  }

  function Members(teams: map<string, set<string>>, team: string): set<string>
  {
    if team in teams then teams[team] else {}
  }

  /** Every team member is a user recorded with that team, and "" is never a team. */
  ghost predicate TeamsOk(teams: map<string, set<string>>, users: map<string, User>)
  {
    "" !in teams
    && forall t, u :: t in teams && u in teams[t] ==> u in users && users[u].team == t
  }

  /** Every record is filed under its own name. */
  ghost predicate RecordsOk(repositories: map<string, Repo>, users: map<string, User>)
  {
    ReposNamed(repositories) && (forall k :: k in users ==> users[k].username == k)
  }

  ghost predicate ReposNamed(repositories: map<string, Repo>)
  {
    forall k :: k in repositories ==> repositories[k].name == k
  }

  /** The relations get_or_create_user and get_or_create_repository keep. */
  ghost predicate OrgOk(o: Org)
  {
    TeamsOk(o.teams, o.users) && RecordsOk(o.repositories, o.users)
  }

  /** get_or_create_repository on the value: an existing record is kept as it is. */
  function WithRepository(o: Org, name: string, defaultBranch: string): (r: Org)
    ensures name in r.repositories
    ensures r.repositories.Keys == o.repositories.Keys + {name}
    ensures name in o.repositories ==> r == o
    ensures name !in o.repositories ==> r.repositories[name] == NewRepo(name, defaultBranch)
    ensures r == o.(repositories := r.repositories)
  {
    if name in o.repositories then o else o.(repositories := o.repositories[name := NewRepo(name, defaultBranch)])
  }

  /**
   * get_or_create_user on the value: a new user is recorded with the given
   * team, and joins that team when it is not "". An existing user is kept,
   * team and all.
   */
  function WithUser(o: Org, username: string, team: string): (r: Org)
    ensures username in r.users
    ensures r.users.Keys == o.users.Keys + {username}
    ensures username in o.users ==> r == o
    ensures username !in o.users ==> r.users[username] == NewUser(username, team)
    ensures r == o.(users := r.users, teams := r.teams)
  {
    if username in o.users then o
    else
      o.(users := o.users[username := NewUser(username, team)],
         teams := if team != "" then o.teams[team := Members(o.teams, team) + {username}] else o.teams)
  }

  /** Asking twice gives the same organisation as asking once. */
  lemma WithUserIdempotent(o: Org, username: string, team: string, team': string)
    ensures WithUser(WithUser(o, username, team), username, team') == WithUser(o, username, team)
  {
  }

  /** Creating users and repositories keeps the organisation's relations. */
  lemma WithUserKeeps(o: Org, username: string, team: string)
    requires OrgOk(o)
    ensures OrgOk(WithUser(o, username, team))
    ensures team != "" && username !in o.users ==> username in WithUser(o, username, team).teams[team]
  {
    if username !in o.users {
      var r := WithUser(o, username, team);
      forall t, u | t in r.teams && u in r.teams[t]
        ensures u in r.users && r.users[u].team == t
      {
        if t == team && u == username {
        } else if t == team {
          assert u in o.teams[t];
        } else {
          assert r.teams[t] == o.teams[t];
        }
      }
    }
  }

  lemma WithRepositoryKeeps(o: Org, name: string, defaultBranch: string)
    requires OrgOk(o)
    ensures OrgOk(WithRepository(o, name, defaultBranch))
  {
  }

  /** The record get_or_create_repository returns: the existing one, else a new one. */
  function RepoOf(repositories: map<string, Repo>, name: string): (r: Repo)
    ensures name in repositories ==> r == repositories[name]
    ensures name !in repositories ==> r == NewRepo(name, "main")
    ensures ReposNamed(repositories) ==> r.name == name
  {
    if name in repositories then repositories[name] else NewRepo(name, "main")
  }

  datatype RepoStats = RepoStats(
    name: string, prsCreated: int, prsMerged: int, contributorsCount: int, teamsInvolved: int,
    avgTimeToMerge: real, avgReviewTime: real, hotfixes: int, reverts: int, lastUpdated: Option<int>)

  /** OrganizationMetrics.get_repository_stats: nothing for an unknown repository. */
  function RepositoryStats(repositories: map<string, Repo>, name: string): (s: Option<RepoStats>)
    ensures s.None? <==> name !in repositories
    ensures s.Some? ==> var r := repositories[name];
      s.value.prsCreated == r.prsCreated && s.value.prsMerged == r.prsMerged
      && s.value.contributorsCount == |r.contributors| && s.value.teamsInvolved == |r.teamsInvolved|
      && s.value.hotfixes == r.code.hotfixes && s.value.reverts == r.code.reverts
      && s.value.lastUpdated == r.lastUpdated && s.value.name == r.name
      && (r.time.toMerge != [] ==> s.value.avgTimeToMerge * (|r.time.toMerge| as real) == Sum(r.time.toMerge) as real)
      && (r.review.waitTimes != [] ==> s.value.avgReviewTime * (|r.review.waitTimes| as real) == Sum(r.review.waitTimes) as real)
      && (r.time.toMerge == [] ==> s.value.avgTimeToMerge == 0.0)
      && (r.review.waitTimes == [] ==> s.value.avgReviewTime == 0.0)
  {
    if name !in repositories then None
    else
      var r := repositories[name];
      Some(RepoStats(r.name, r.prsCreated, r.prsMerged, |r.contributors|, |r.teamsInvolved|,
        Mean(r.time.toMerge), Mean(r.review.waitTimes), r.code.hotfixes, r.code.reverts, r.lastUpdated))
  }

  class OrganizationMetrics {
    const name: string
    var repositories: map<string, Repo>
    var users: map<string, User>
    var teams: map<string, set<string>>
    var review: ReviewTally
    var code: CodeTally
    var time: TimeTally
    var collab: CollabTally
    var bottleneck: BottleneckTally
    var prsCreated: int
    var prsMerged: int
    var prsMergedToMain: int
    var directMergesToMain: int

    function State(): Org
      reads this
    {
      Org(name, repositories, users, teams, review, code, time, collab, bottleneck,
        prsCreated, prsMerged, prsMergedToMain, directMergesToMain)
    }

    ghost predicate Valid()
      reads this
    {
      TeamsOk(teams, users) && RecordsOk(repositories, users)
    }

    constructor (name: string)
      ensures State() == NewOrg(name) && Valid()
    {
      this.name := name;
      repositories, users, teams := map[], map[], map[];
      review, code, time, collab, bottleneck := EmptyReviewTally, EmptyCodeTally, EmptyTimeTally, EmptyCollabTally, EmptyBottleneckTally;
      prsCreated, prsMerged, prsMergedToMain, directMergesToMain := 0, 0, 0, 0;
    }

    method GetOrCreateRepository(repoName: string, defaultBranch: string)
      requires Valid()
      modifies this`repositories
      ensures Valid()
      ensures State() == WithRepository(old(State()), repoName, defaultBranch)
    {
      WithRepositoryKeeps(State(), repoName, defaultBranch);
      if repoName !in repositories {
        repositories := repositories[repoName := NewRepo(repoName, defaultBranch)];
      }
    }

    method GetOrCreateUser(username: string, team: string)
      requires Valid()
      modifies this`users, this`teams
      ensures Valid()
      ensures State() == WithUser(old(State()), username, team)
    {
      WithUserKeeps(State(), username, team);
      if username !in users {
        users := users[username := NewUser(username, team)];
        if team != "" {
          teams := teams[team := (if team in teams then teams[team] else {}) + {username}];
        }
      }
    }

    /** OrganizationMetrics.get_all_contributors: the union of every repository's contributors. */
    method GetAllContributors() returns (all: set<string>)
      ensures forall u :: u in all <==> exists k :: k in repositories && u in repositories[k].contributors
    {
      all := {};
      var remaining := repositories.Keys;
      while remaining != {}
        invariant remaining <= repositories.Keys
        invariant forall u :: u in all <==> exists k :: k in repositories.Keys - remaining && u in repositories[k].contributors
        decreases |remaining|
      {
        var k :| k in remaining;
        all := all + repositories[k].contributors;
        remaining := remaining - {k};
      }
    }
  }
}

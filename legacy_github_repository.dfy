// process_repository of wellcode_cli/github/github_metrics.py with the
// evidently intended process_pr: every pull request created inside the window
// moves the repository's last update and is then recorded by ProcessPr. The
// fold CorrectFrom states what the loop computes; ProcessRepository is the
// loop over the organisation object.

module LegacyGithubRepository {
  import opened GithubData
  import opened LegacyGithubOrg
  import opened LegacyGithubPasses
  import opened LegacyGithubProcess

  /** The last-update step of process_repository at one repository of an organisation. */
  function Moved(o: Org, repo: string, pr: PullRequest, start: int, end: int): (r: Org)
    requires repo in o.repositories
    ensures repo in r.repositories
  {
    o.(repositories := o.repositories[repo := o.repositories[repo].(lastUpdated := LastStep(o.repositories[repo].lastUpdated, pr, start, end))])
  }

  /** One listed pull request: skipped outside the window, else the last-update step, then process_pr. */
  function CorrectStep(o: Org, pr: PullRequest, repo: string, start: int, end: int, now: int): (r: Org)
    requires repo in o.repositories
    ensures repo in r.repositories
  {
    var o1 := Moved(o, repo, pr, start, end);
    if InWindow(pr, start, end) then ProcessPr(o1, pr, repo, now) else o1
  }

  function CorrectFrom(o: Org, repo: string, pulls: seq<PullRequest>, start: int, end: int, now: int): (r: Org)
    requires repo in o.repositories
    ensures repo in r.repositories
  {
    if pulls == [] then o
    else CorrectStep(CorrectFrom(o, repo, pulls[..|pulls| - 1], start, end, now), pulls[|pulls| - 1], repo, start, end, now)
  }

  /** process_repository: the record created or found, its last update reset to `start`, then every listed pull request. */
  function RepositoryCorrected(o: Org, name: string, defaultBranch: string, pulls: seq<PullRequest>,
                               start: int, end: int, now: int): Org
  {
    var o1 := WithRepository(o, name, defaultBranch, now);
    CorrectFrom(Reset(o1, name, start), name, pulls, start, end, now)
  }

  /** `repo_metrics.last_updated = start_date`. */
  function Reset(o: Org, name: string, start: int): (r: Org)
    requires name in o.repositories
    ensures name in r.repositories
  {
    o.(repositories := o.repositories[name := o.repositories[name].(lastUpdated := start)])
  }

  /** The pull requests created inside the window. */
  function InWindowCount(pulls: seq<PullRequest>, start: int, end: int): nat
  {
    if pulls == [] then 0
    else InWindowCount(pulls[..|pulls| - 1], start, end) + (if InWindow(pulls[|pulls| - 1], start, end) then 1 else 0)
  }

  /** The merged pull requests created inside the window. */
  function MergedInWindowCount(pulls: seq<PullRequest>, start: int, end: int): nat
  {
    if pulls == [] then 0
    else
      var pr := pulls[|pulls| - 1];
      MergedInWindowCount(pulls[..|pulls| - 1], start, end) + (if InWindow(pr, start, end) && Merged(pr) then 1 else 0)
  }

  // ---------------------------------------------------------------- what one step and the fold keep

  /** One step keeps the relations between the records and the repositories' names. */
  lemma CorrectStepKeeps(o: Org, pr: PullRequest, repo: string, start: int, end: int, now: int)
    requires OrgOk(o) && repo in o.repositories
    ensures var r := CorrectStep(o, pr, repo, start, end, now);
      OrgOk(r) && r.repositories.Keys == o.repositories.Keys && r.order == o.order && r.teams == o.teams
  {
    var o1 := Moved(o, repo, pr, start, end);
    MoveLastKeeps(o, repo, LastStep(o.repositories[repo].lastUpdated, pr, start, end));
    assert o1.repositories.Keys == o.repositories.Keys;
    if InWindow(pr, start, end) {
      ProcessPrKeeps(o1, pr, repo, now);
      ProcessPrFrame(o1, pr, repo, now);
    }
  }

  lemma {:induction false} CorrectFromKeeps(o: Org, repo: string, pulls: seq<PullRequest>, start: int, end: int, now: int)
    requires OrgOk(o) && repo in o.repositories
    ensures var r := CorrectFrom(o, repo, pulls, start, end, now);
      OrgOk(r) && r.repositories.Keys == o.repositories.Keys && r.order == o.order && r.teams == o.teams
    decreases |pulls|
  {
    if pulls != [] {
      var init := pulls[..|pulls| - 1];
      CorrectFromKeeps(o, repo, init, start, end, now);
      CorrectStepKeeps(CorrectFrom(o, repo, init, start, end, now), pulls[|pulls| - 1], repo, start, end, now);
    }
  }

  /**
   * One step counts the pull request at its repository exactly when it was
   * created inside the window, and leaves every other repository as it was.
   */
  lemma CorrectStepCounts(o: Org, pr: PullRequest, repo: string, start: int, end: int, now: int)
    requires repo in o.repositories
    ensures var r := CorrectStep(o, pr, repo, start, end, now);
      var a := o.repositories[repo]; var b := r.repositories[repo];
      b.prsCreated == a.prsCreated + (if InWindow(pr, start, end) then 1 else 0)
      && b.prsMerged == a.prsMerged + (if InWindow(pr, start, end) && Merged(pr) then 1 else 0)
      && (forall k :: k in o.repositories && k != repo ==> k in r.repositories && r.repositories[k] == o.repositories[k])
  {
    var o1 := Moved(o, repo, pr, start, end);
    if InWindow(pr, start, end) {
      ProcessPrCounters(o1, pr, repo, now);
    }
  }

  /** The fold counts the in-window pull requests, and the merged ones among them, at the repository alone. */
  lemma {:induction false} CorrectFromCounts(o: Org, repo: string, pulls: seq<PullRequest>, start: int, end: int, now: int)
    requires repo in o.repositories
    ensures var r := CorrectFrom(o, repo, pulls, start, end, now);
      var a := o.repositories[repo]; var b := r.repositories[repo];
      b.prsCreated == a.prsCreated + InWindowCount(pulls, start, end)
      && b.prsMerged == a.prsMerged + MergedInWindowCount(pulls, start, end)
      && (forall k :: k in o.repositories && k != repo ==> k in r.repositories && r.repositories[k] == o.repositories[k])
    decreases |pulls|
  {
    if pulls != [] {
      var init := pulls[..|pulls| - 1];
      CorrectFromCounts(o, repo, init, start, end, now);
      CorrectStepCounts(CorrectFrom(o, repo, init, start, end, now), pulls[|pulls| - 1], repo, start, end, now);
    }
  }

  /** Pull requests created outside the window leave the organisation as it was. */
  lemma OutOfWindowIgnored(o: Org, repo: string, pulls: seq<PullRequest>, pr: PullRequest, start: int, end: int, now: int)
    requires repo in o.repositories && !InWindow(pr, start, end)
    ensures CorrectFrom(o, repo, pulls + [pr], start, end, now) == CorrectFrom(o, repo, pulls, start, end, now)
  {
    assert (pulls + [pr])[..|pulls|] == pulls;
    var c := CorrectFrom(o, repo, pulls, start, end, now);
    assert c.repositories[repo := c.repositories[repo]] == c.repositories;
  }

  /**
   * process_repository: the repository's record counts the in-window pull
   * requests and merges on top of what it held before (nothing for a new
   * one), a new repository is appended to the order, the other repositories
   * are untouched, and the relations between the records hold.
   */
  lemma RepositoryCorrectedEffect(o: Org, name: string, defaultBranch: string, pulls: seq<PullRequest>,
                                  start: int, end: int, now: int)
    requires OrgOk(o)
    ensures var r := RepositoryCorrected(o, name, defaultBranch, pulls, start, end, now);
      var created := if name in o.repositories then o.repositories[name].prsCreated else 0;
      var merged := if name in o.repositories then o.repositories[name].prsMerged else 0;
      OrgOk(r) && name in r.repositories
      && r.repositories[name].prsCreated == created + InWindowCount(pulls, start, end)
      && r.repositories[name].prsMerged == merged + MergedInWindowCount(pulls, start, end)
      && r.order == (if name in o.repositories then o.order else o.order + [name])
      && (forall k :: k in o.repositories && k != name ==> k in r.repositories && r.repositories[k] == o.repositories[k])
  {
    var o1 := WithRepository(o, name, defaultBranch, now);
    var o2 := Reset(o1, name, start);
    WithRepositoryKeeps(o, name, defaultBranch, now);
    MoveLastKeeps(o1, name, start);
    CorrectFromKeeps(o2, name, pulls, start, end, now);
    CorrectFromCounts(o2, name, pulls, start, end, now);
  }

  // ---------------------------------------------------------------- the loop

  /** One pull request of the loop at the organisation object. */
  method CorrectOne(org: LegacyOrganizationMetrics, name: string, pr: PullRequest, start: int, end: int, now: int)
    requires org.Valid() && name in org.repositories
    modifies org`repositories, org`users, org`review, org`code, org`time, org`collab, org`bottleneck
    ensures org.Valid() && org.State() == CorrectStep(old(org.State()), pr, name, start, end, now)
  {
    ghost var o := org.State();
    if start <= pr.createdAt <= end {
      StepLast(org, name, pr, start, end);
      MoveLastKeeps(o, name, LastStep(o.repositories[name].lastUpdated, pr, start, end));
      assert org.State() == Moved(o, name, pr, start, end);
      ProcessPullRequest(org, pr, name, now);
    } else {
      assert o.repositories[name := o.repositories[name]] == o.repositories;
    }
  }

  lemma CorrectNext(o: Org, repo: string, pulls: seq<PullRequest>, i: nat, start: int, end: int, now: int)
    requires repo in o.repositories && i < |pulls|
    ensures CorrectFrom(o, repo, pulls[..i + 1], start, end, now)
      == CorrectStep(CorrectFrom(o, repo, pulls[..i], start, end, now), pulls[i], repo, start, end, now)
  {
    assert pulls[..i + 1][..i] == pulls[..i];
  }

  /** process_repository with the evidently intended process_pr: one loop over the listed pull requests. */
  method ProcessRepository(org: LegacyOrganizationMetrics, name: string, defaultBranch: string,
                           pulls: seq<PullRequest>, start: int, end: int, now: int)
    requires org.Valid()
    modifies org`repositories, org`order, org`users, org`review, org`code, org`time, org`collab, org`bottleneck
    ensures org.Valid()
    ensures org.State() == RepositoryCorrected(old(org.State()), name, defaultBranch, pulls, start, end, now)
  {
    org.GetOrCreateRepository(name, defaultBranch, now);
    ghost var o1 := org.State();
    MoveLastKeeps(o1, name, start);
    org.repositories := org.repositories[name := org.repositories[name].(lastUpdated := start)];
    ghost var o2 := org.State();
    assert o2 == Reset(o1, name, start);
    var i := 0;
    while i < |pulls|
      invariant 0 <= i <= |pulls|
      invariant org.Valid() && name in org.repositories
      invariant org.State() == CorrectFrom(o2, name, pulls[..i], start, end, now)
    {
      CorrectNext(o2, name, pulls, i, start, end, now);
      CorrectOne(org, name, pulls[i], start, end, now);
      i := i + 1;
    }
    assert pulls[..i] == pulls;
  }
}

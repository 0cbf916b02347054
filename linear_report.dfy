// The issue-tracker report (src/wellcode_cli/linear/linear_metrics.py): the
// per-issue fold of get_linear_metrics over the fetched issues, the
// organisation-level container it fills (LinearOrgMetrics in
// src/wellcode_cli/linear/models/metrics.py), and calculate_estimation_accuracy.
// Fetching the issues is not part of this model: they arrive as a sequence.

module LinearReport {
  import opened Common
  import opened LinearModels
  import opened LinearCalendar

  /** The work seconds between the start and the completion, 0 unless both are known. */
  function ActualSeconds(issue: Issue): int
  {
    if issue.startedAt.Some? && issue.completedAt.Some? then WorkSeconds(issue.startedAt.value, issue.completedAt.value) else 0
  }

  /** The key the fold files a team under: the team's key, possibly missing. */
  function TeamSlot(issue: Issue): Option<string>
    requires issue.team.Some?
  {
    issue.team.value.key
  }

  /** The key the fold files a project under: its slug, possibly missing. */
  function ProjectSlot(issue: Issue): Option<string>
    requires issue.project.Some?
  {
    issue.project.value.slugId
  }

  function TeamsStep(m: map<Option<string>, TeamTally>, issue: Issue): map<Option<string>, TeamTally>
  {
    if issue.team.Some? then
      var k := TeamSlot(issue);
      m[k := TeamStep(if k in m then m[k] else EmptyTeamTally, issue)]
    else m
  }

  /** A project's name (fixed when it is first seen) and its counters. */
  datatype NamedProject = NamedProject(name: string, state: ProjectState)

  function ProjectsStep(m: map<Option<string>, NamedProject>, issue: Issue): map<Option<string>, NamedProject>
  {
    if issue.project.Some? then
      var k := ProjectSlot(issue);
      var p := if k in m then m[k] else NamedProject(issue.project.value.name, EmptyProjectState);
      m[k := NamedProject(p.name, ProjectStep(p.state, issue))]
    else m
  }

  /** label_counts after counting each non-empty name of `labels`, in order. */
  function LabelsStep(m: map<string, int>, labels: seq<string>): map<string, int>
  {
    if labels == [] then m
    else
      var before := LabelsStep(m, labels[..|labels| - 1]);
      var l := labels[|labels| - 1];
      if l != "" then Bump(before, l, 1) else before
  }

  lemma {:induction false} LabelsStepConcat(m: map<string, int>, a: seq<string>, b: seq<string>)
    ensures LabelsStep(m, a + b) == LabelsStep(LabelsStep(m, a), b)
    decreases |b|
  {
    if b == [] {
      assert a + b == a;
    } else {
      assert (a + b)[..|a + b| - 1] == a + b[..|b| - 1];
      LabelsStepConcat(m, a, b[..|b| - 1]);
    }
  }

  /** Each non-empty label name is counted once per occurrence; the empty name never. */
  lemma {:induction false} LabelsStepCounts(m: map<string, int>, labels: seq<string>, l: string)
    ensures l != "" ==> Get(LabelsStep(m, labels), l) == Get(m, l) + multiset(labels)[l]
    ensures "" !in m ==> "" !in LabelsStep(m, labels)
    decreases |labels|
  {
    if labels != [] {
      var init := labels[..|labels| - 1];
      LabelsStepCounts(m, init, l);
      assert labels == init + [labels[|labels| - 1]];
      assert multiset(labels) == multiset(init) + multiset{labels[|labels| - 1]};
    }
  }

  // The fold over a prefix of the issues, as values.

  function IssuesTally(issues: seq<Issue>): IssueTally
  {
    if issues == [] then EmptyIssueTally else IssueStep(IssuesTally(issues[..|issues| - 1]), issues[|issues| - 1])
  }

  function CycleOf(issues: seq<Issue>): CycleTally
  {
    if issues == [] then EmptyCycleTally else CycleStep(CycleOf(issues[..|issues| - 1]), issues[|issues| - 1])
  }

  function EstimationOf(issues: seq<Issue>): EstimationTally
  {
    if issues == [] then EmptyEstimationTally
    else
      var last := issues[|issues| - 1];
      EstimationStep(EstimationOf(issues[..|issues| - 1]), last, ActualSeconds(last))
  }

  function TeamsOf(issues: seq<Issue>): map<Option<string>, TeamTally>
  {
    if issues == [] then map[] else TeamsStep(TeamsOf(issues[..|issues| - 1]), issues[|issues| - 1])
  }

  function ProjectsOf(issues: seq<Issue>): map<Option<string>, NamedProject>
  {
    if issues == [] then map[] else ProjectsStep(ProjectsOf(issues[..|issues| - 1]), issues[|issues| - 1])
  }

  /** Every label of every issue, in order. */
  function AllLabels(issues: seq<Issue>): seq<string>
  {
    if issues == [] then [] else AllLabels(issues[..|issues| - 1]) + issues[|issues| - 1].labels
  }

  /** The issue counters after the fold: one per issue, and the state distribution adds up to it. */
  lemma {:induction false} IssuesTallyOk(issues: seq<Issue>)
    ensures IssueTallyOk(IssuesTally(issues))
    ensures IssuesTally(issues).totalCreated == |issues|
    ensures MapSum(IssuesTally(issues).byState) == |issues|
    decreases |issues|
  {
    if issues != [] {
      IssuesTallyOk(issues[..|issues| - 1]);
      IssueStepKeepsTally(IssuesTally(issues[..|issues| - 1]), issues[|issues| - 1]);
      IssueStepCountsState(IssuesTally(issues[..|issues| - 1]), issues[|issues| - 1]);
    }
  }

  /** One team entry per distinct team key seen, and no other. */
  lemma {:induction false} TeamsOfKeys(issues: seq<Issue>)
    ensures TeamsOf(issues).Keys == set i | 0 <= i < |issues| && issues[i].team.Some? :: TeamSlot(issues[i])
    ensures forall k :: k in TeamsOf(issues) ==> TeamTallyOk(TeamsOf(issues)[k])
    decreases |issues|
  {
    if issues != [] {
      var init := issues[..|issues| - 1];
      var last := issues[|issues| - 1];
      TeamsOfKeys(init);
      var before := TeamsOf(init);
      if last.team.Some? {
        var k := TeamSlot(last);
        TeamStepKeepsTally(if k in before then before[k] else EmptyTeamTally, last);
      }
      assert forall i :: 0 <= i < |init| ==> init[i] == issues[i];
      var ks := set i | 0 <= i < |issues| && issues[i].team.Some? :: TeamSlot(issues[i]);
      var ks0 := set i | 0 <= i < |init| && init[i].team.Some? :: TeamSlot(init[i]);
      assert ks == ks0 + (if last.team.Some? then {TeamSlot(last)} else {}) by {
        forall x | x in ks ensures x in ks0 + (if last.team.Some? then {TeamSlot(last)} else {}) {
          var i :| 0 <= i < |issues| && issues[i].team.Some? && TeamSlot(issues[i]) == x;
          if i < |init| {
            assert init[i] == issues[i];
          }
        }
      }
    }
  }

  /** label_counts[l] is the number of times l occurs among all issues' labels. */
  lemma LabelCountsAreOccurrences(issues: seq<Issue>, l: string)
    requires l != ""
    ensures Get(LabelsStep(map[], AllLabels(issues)), l) == multiset(AllLabels(issues))[l]
  {
    LabelsStepCounts(map[], AllLabels(issues), l);
  }

  /**
   * LinearOrgMetrics. The three accumulators are objects the fold updates in
   * place; the per-team and per-project entries are kept as the values of
   * their counters (TeamMetrics and ProjectMetrics are modelled as classes in
   * LinearModels, with update methods proved against the same steps).
   */
  class LinearOrgMetrics {
    const name: string
    const issues: IssueMetrics
    const cycleTime: CycleTimeMetrics
    const estimation: EstimationMetrics
    var teams: map<Option<string>, TeamTally>
    var projects: map<Option<string>, NamedProject>
    var labelCounts: map<string, int>

    ghost predicate Valid()
      reads this, issues, cycleTime, estimation
    {
      issues.Valid() && cycleTime.Valid() && estimation.Valid()
    }

    /** LinearOrgMetrics(name=...): its accumulators start empty, with no team, project or label. */
    constructor (name: string)
      ensures Valid() && this.name == name
      ensures fresh(issues) && fresh(cycleTime) && fresh(estimation)
      ensures issues.State() == EmptyIssueTally && cycleTime.State() == EmptyCycleTally
      ensures estimation.State() == EmptyEstimationTally
      ensures teams == map[] && projects == map[] && labelCounts == map[]
    {
      this.name := name;
      issues := new IssueMetrics();
      cycleTime := new CycleTimeMetrics();
      estimation := new EstimationMetrics();
      teams, projects, labelCounts := map[], map[], map[];
    }

    /** Files the issue under its team key, starting empty counters the first time the key is seen. */
    method UpdateTeam(issue: Issue)
      modifies this`teams
      ensures teams == TeamsStep(old(teams), issue)
    {
      if issue.team.Some? {
        var key := issue.team.value.key;
        if key !in teams {
          teams := teams[key := EmptyTeamTally];
        }
        teams := teams[key := TeamStep(teams[key], issue)];
      }
    }

    /** Files the issue under its project slug, keeping the name of the first issue seen with it. */
    method UpdateProject(issue: Issue)
      modifies this`projects
      ensures projects == ProjectsStep(old(projects), issue)
    {
      if issue.project.Some? {
        var slug := issue.project.value.slugId;
        if slug !in projects {
          projects := projects[slug := NamedProject(issue.project.value.name, EmptyProjectState)];
        }
        var p := projects[slug];
        projects := projects[slug := NamedProject(p.name, ProjectStep(p.state, issue))];
      }
    }

    /** The label loop: each non-empty name is counted. */
    method CountLabels(labels: seq<string>)
      modifies this`labelCounts
      ensures labelCounts == LabelsStep(old(labelCounts), labels)
    {
      var i := 0;
      while i < |labels|
        invariant 0 <= i <= |labels|
        invariant labelCounts == LabelsStep(old(labelCounts), labels[..i])
      {
        assert labels[..i + 1][..i] == labels[..i];
        var l := labels[i];
        if l != "" {
          if l !in labelCounts {
            labelCounts := labelCounts[l := 0];
          }
          labelCounts := labelCounts[l := labelCounts[l] + 1];
        }
        i := i + 1;
      }
      assert labels[..i] == labels;
    }

    /** The three accumulators take the issue; the work seconds are computed only with both endpoints. */
    method UpdateAccumulators(issue: Issue)
      requires Valid()
      modifies issues, cycleTime, estimation
      ensures Valid()
      ensures issues.State() == IssueStep(old(issues.State()), issue)
      ensures cycleTime.State() == CycleStep(old(cycleTime.State()), issue)
      ensures estimation.State() == EstimationStep(old(estimation.State()), issue, ActualSeconds(issue))
    {
      issues.UpdateFromIssue(issue);
      cycleTime.UpdateFromIssue(issue);
      var actual := 0;
      if issue.startedAt.Some? && issue.completedAt.Some? {
        actual := CalculateWorkHours(issue.startedAt, issue.completedAt);
      }
      estimation.UpdateFromIssue(issue, actual);
    }

    /** One iteration of the fold: every accumulator, the issue's team and project, and the labels. */
    method ProcessIssue(issue: Issue)
      requires Valid()
      modifies this, issues, cycleTime, estimation
      ensures Valid()
      ensures issues.State() == IssueStep(old(issues.State()), issue)
      ensures cycleTime.State() == CycleStep(old(cycleTime.State()), issue)
      ensures estimation.State() == EstimationStep(old(estimation.State()), issue, ActualSeconds(issue))
      ensures teams == TeamsStep(old(teams), issue)
      ensures projects == ProjectsStep(old(projects), issue)
      ensures labelCounts == LabelsStep(old(labelCounts), issue.labels)
    {
      UpdateAccumulators(issue);
      UpdateTeam(issue);
      UpdateProject(issue);
      CountLabels(issue.labels);
    }

    /**
     * aggregate_metrics: for a team whose projects map is non-empty it takes
     * the mean of an empty list, which raises; otherwise it changes nothing.
     */
    method AggregateMetrics() returns (raised: bool)
      ensures raised <==> exists k :: k in teams && teams[k].projects != map[]
    {
      var pending := teams.Keys;
      while pending != {}
        invariant pending <= teams.Keys
        invariant forall k :: k in teams && k !in pending ==> teams[k].projects == map[]
        decreases pending
      {
        var k :| k in pending;
        if teams[k].projects != map[] {
          return true;
        }
        pending := pending - {k};
      }
      return false;
    }
  }

  /** Each fold over the first i + 1 issues is one step past the fold over the first i. */
  lemma FoldNext(all: seq<Issue>, i: nat)
    requires i < |all|
    ensures IssuesTally(all[..i + 1]) == IssueStep(IssuesTally(all[..i]), all[i])
    ensures CycleOf(all[..i + 1]) == CycleStep(CycleOf(all[..i]), all[i])
    ensures EstimationOf(all[..i + 1]) == EstimationStep(EstimationOf(all[..i]), all[i], ActualSeconds(all[i]))
    ensures TeamsOf(all[..i + 1]) == TeamsStep(TeamsOf(all[..i]), all[i])
    ensures ProjectsOf(all[..i + 1]) == ProjectsStep(ProjectsOf(all[..i]), all[i])
    ensures LabelsStep(map[], AllLabels(all[..i + 1])) == LabelsStep(LabelsStep(map[], AllLabels(all[..i])), all[i].labels)
  {
    assert all[..i + 1][..i] == all[..i];
    LabelsStepConcat(map[], AllLabels(all[..i]), all[i].labels);
  }

  /** The fold of get_linear_metrics followed by aggregate_metrics. */
  method GetLinearMetrics(name: string, all: seq<Issue>) returns (org: LinearOrgMetrics, raised: bool)
    ensures org.Valid()
    ensures org.issues.State() == IssuesTally(all)
    ensures org.cycleTime.State() == CycleOf(all)
    ensures org.estimation.State() == EstimationOf(all)
    ensures org.teams == TeamsOf(all)
    ensures org.projects == ProjectsOf(all)
    ensures org.labelCounts == LabelsStep(map[], AllLabels(all))
    ensures raised <==> exists k :: k in TeamsOf(all) && TeamsOf(all)[k].projects != map[]
  {
    org := new LinearOrgMetrics(name);
    FoldIssues(org, all);
    raised := org.AggregateMetrics();
  }

  /** The loop of get_linear_metrics over a freshly created LinearOrgMetrics. */
  method FoldIssues(org: LinearOrgMetrics, all: seq<Issue>)
    requires org.Valid()
    requires org.issues.State() == EmptyIssueTally && org.cycleTime.State() == EmptyCycleTally
    requires org.estimation.State() == EmptyEstimationTally
    requires org.teams == map[] && org.projects == map[] && org.labelCounts == map[]
    modifies org, org.issues, org.cycleTime, org.estimation
    ensures org.Valid()
    ensures org.issues.State() == IssuesTally(all)
    ensures org.cycleTime.State() == CycleOf(all)
    ensures org.estimation.State() == EstimationOf(all)
    ensures org.teams == TeamsOf(all)
    ensures org.projects == ProjectsOf(all)
    ensures org.labelCounts == LabelsStep(map[], AllLabels(all))
  {
    var i := 0;
    assert all[..0] == [];
    while i < |all|
      invariant 0 <= i <= |all|
      invariant org.Valid()
      invariant org.issues.State() == IssuesTally(all[..i])
      invariant org.cycleTime.State() == CycleOf(all[..i])
      invariant org.estimation.State() == EstimationOf(all[..i])
      invariant org.teams == TeamsOf(all[..i])
      invariant org.projects == ProjectsOf(all[..i])
      invariant org.labelCounts == LabelsStep(map[], AllLabels(all[..i]))
    {
      FoldNext(all, i);
      org.ProcessIssue(all[i]);
      i := i + 1;
    }
    TakeAll(all);
  }

  lemma TakeAll(all: seq<Issue>)
    ensures all[..|all|] == all
  {
  }

  // ---------------------------------------------------------------- calculate_estimation_accuracy

  datatype AccuracyReport = AccuracyReport(
    totalEstimated: int, accurateEstimates: int, underestimates: int, overestimates: int, variances: seq<real>)

  /** The issues the report considers: a non-zero estimate, a start and a completion. */
  predicate Eligible(issue: Issue)
  {
    issue.estimate.Some? && issue.estimate.value != 0 && issue.startedAt.Some? && issue.completedAt.Some?
  }

  function EligibleIssues(issues: seq<Issue>): (r: seq<Issue>)
    ensures forall i :: 0 <= i < |r| ==> Eligible(r[i])
    ensures |r| <= |issues|
  {
    if issues == [] then []
    else EligibleIssues(issues[..|issues| - 1]) + (if Eligible(issues[|issues| - 1]) then [issues[|issues| - 1]] else [])
  }

  /** One eligible issue's contribution: none when its work time is zero, else its variance and class. */
  function AccuracyStep(r: AccuracyReport, actual: int, estimate: int): AccuracyReport
    requires estimate != 0
  {
    if actual == 0 then r
    else
      var v := VariancePercent(actual, estimate);
      var a := Classify(v);
      r.(accurateEstimates := r.accurateEstimates + Inc(a == Accurate), underestimates := r.underestimates + Inc(a == Under),
        overestimates := r.overestimates + Inc(a == Over), variances := r.variances + [v])
  }

  /** The loop's classification over eligible issues; the variance is against the raw estimate. */
  function AccuracyOf(estimated: seq<Issue>, total: int): AccuracyReport
    requires forall i :: 0 <= i < |estimated| ==> Eligible(estimated[i])
  {
    if estimated == [] then AccuracyReport(total, 0, 0, 0, [])
    else
      var issue := estimated[|estimated| - 1];
      assert Eligible(issue);
      AccuracyStep(AccuracyOf(estimated[..|estimated| - 1], total),
        WorkSeconds(issue.startedAt.value, issue.completedAt.value), issue.estimate.value)
  }

  /** The classes partition the recorded variances, and there are at most as many as estimated issues. */
  lemma {:induction false} AccuracyCounts(estimated: seq<Issue>, total: int)
    requires forall i :: 0 <= i < |estimated| ==> Eligible(estimated[i])
    ensures var r := AccuracyOf(estimated, total);
      r.totalEstimated == total
      && 0 <= r.accurateEstimates && 0 <= r.underestimates && 0 <= r.overestimates
      && r.accurateEstimates + r.underestimates + r.overestimates == |r.variances| <= |estimated|
    decreases |estimated|
  {
    if estimated != [] {
      AccuracyCounts(estimated[..|estimated| - 1], total);
    }
  }

  lemma AccuracyNext(estimated: seq<Issue>, i: nat)
    requires i < |estimated| && forall j :: 0 <= j < |estimated| ==> Eligible(estimated[j])
    ensures var issue := estimated[i];
      AccuracyOf(estimated[..i + 1], |estimated|)
      == AccuracyStep(AccuracyOf(estimated[..i], |estimated|),
                      WorkSeconds(issue.startedAt.value, issue.completedAt.value), issue.estimate.value)
  {
    assert estimated[..i + 1][..i] == estimated[..i];
  }

  /** The loop body on one eligible issue: its work time, then its variance and class when non-zero. */
  method AccountIssue(r: AccuracyReport, issue: Issue) returns (r': AccuracyReport)
    requires Eligible(issue)
    ensures r' == AccuracyStep(r, WorkSeconds(issue.startedAt.value, issue.completedAt.value), issue.estimate.value)
  {
    r' := r;
    var actual := CalculateWorkHours(issue.startedAt, issue.completedAt);
    if actual != 0 {
      var variance := VariancePercent(actual, issue.estimate.value);
      var a := Classify(variance);
      if a == Accurate {
        r' := r'.(accurateEstimates := r'.accurateEstimates + 1);
      } else if a == Under {
        r' := r'.(underestimates := r'.underestimates + 1);
      } else {
        r' := r'.(overestimates := r'.overestimates + 1);
      }
      r' := r'.(variances := r'.variances + [variance]);
    }
  }

  /** calculate_estimation_accuracy. */
  method CalculateEstimationAccuracy(issues: seq<Issue>) returns (r: AccuracyReport)
    ensures r == AccuracyOf(EligibleIssues(issues), |EligibleIssues(issues)|)
    ensures r.totalEstimated == |EligibleIssues(issues)|
    ensures r.accurateEstimates + r.underestimates + r.overestimates == |r.variances| <= r.totalEstimated
  {
    var estimated := EligibleIssues(issues);
    AccuracyCounts(estimated, |estimated|);
    if estimated == [] {
      return AccuracyReport(0, 0, 0, 0, []);
    }
    r := AccuracyReport(|estimated|, 0, 0, 0, []);
    var i := 0;
    while i < |estimated|
      invariant 0 <= i <= |estimated|
      invariant r == AccuracyOf(estimated[..i], |estimated|)
    {
      AccuracyNext(estimated, i);
      r := AccountIssue(r, estimated[i]);
      i := i + 1;
    }
    assert estimated[..i] == estimated;
  }
}

// The issue-tracker accumulators (src/wellcode_cli/linear/models/metrics.py;
// wellcode_cli/linear/models/metrics.py is the same file). Each accumulator is
// a class whose fields the update method changes in place; `State()` gives
// its fields as a value, and the `...Step` function beside it says what one
// update does to that value. Durations are whole seconds.

module LinearModels {
  import opened Common
  import opened Text

  datatype TeamRef = TeamRef(key: Option<string>)
  datatype ProjectRef = ProjectRef(key: Option<string>, slugId: Option<string>, name: string)
  /** One history node: when it happened and the names of the states it left and entered ("" when absent). */
  datatype HistoryEntry = HistoryEntry(createdAt: int, fromState: string, toState: string)

  /** The fields of an issue node the accumulators read; an absent object is None. */
  datatype Issue = Issue(
    stateName: Option<string>,
    stateType: Option<string>,
    labels: seq<string>,
    priority: Option<int>,
    team: Option<TeamRef>,
    project: Option<ProjectRef>,
    assignee: Option<string>,
    estimate: Option<int>,
    createdAt: int,
    startedAt: Option<int>,
    completedAt: Option<int>,
    history: seq<HistoryEntry>)

  predicate IsCompleted(issue: Issue)
  {
    issue.stateType == Some("completed")
  }

  predicate IsInProgress(issue: Issue)
  {
    issue.stateType == Some("started") || issue.stateType == Some("inProgress")
  }

  /** The state name, "Unknown" when the state has none. */
  function StateName(issue: Issue): string
  {
    if issue.stateName.Some? then issue.stateName.value else "Unknown"
  }

  /** Some label is "bug", ignoring case. */
  predicate HasBugLabel(issue: Issue)
  {
    exists i :: 0 <= i < |issue.labels| && Lower(issue.labels[i]) == "bug"
  }

  /** Some label is "feature" or "enhancement", ignoring case. */
  predicate HasFeatureLabel(issue: Issue)
  {
    exists i :: 0 <= i < |issue.labels| && (Lower(issue.labels[i]) == "feature" || Lower(issue.labels[i]) == "enhancement")
  }

  /** The team key when it is present and non-empty. */
  function TeamKey(issue: Issue): (k: Option<string>)
    ensures k.Some? ==> k.value != ""
  {
    if issue.team.Some? && issue.team.value.key.Some? && issue.team.value.key.value != "" then issue.team.value.key else None
  }

  /** The project key when the project and its key are present and non-empty. */
  function ProjectKey(issue: Issue): (k: Option<string>)
    ensures k.Some? ==> k.value != ""
  {
    if issue.project.Some? && issue.project.value.key.Some? && issue.project.value.key.value != "" then issue.project.value.key else None
  }

  /** The priority when it is present and non-zero. */
  function PriorityKey(issue: Issue): (p: Option<int>)
    ensures p.Some? ==> p.value != 0
  {
    if issue.priority.Some? && issue.priority.value != 0 then issue.priority else None
  }

  /** The assignee name when it is present and non-empty. */
  function AssigneeName(issue: Issue): (a: Option<string>)
    ensures a.Some? ==> a.value != ""
  {
    if issue.assignee.Some? && issue.assignee.value != "" then issue.assignee else None
  }

  function Inc(b: bool): nat
  {
    if b then 1 else 0
  }

  // ---------------------------------------------------------------- IssueMetrics

  datatype ProjectTally = ProjectTally(total: int, bugs: int, features: int, completed: int, inProgress: int)

  const EmptyProjectTally := ProjectTally(0, 0, 0, 0, 0)

  datatype IssueTally = IssueTally(
    totalCreated: int, totalCompleted: int, totalInProgress: int,
    bugsCreated: int, bugsCompleted: int, featuresCreated: int, featuresCompleted: int,
    byPriority: map<int, int>, byState: map<string, int>, byTeam: map<string, int>,
    byProject: map<string, ProjectTally>)

  const EmptyIssueTally := IssueTally(0, 0, 0, 0, 0, 0, 0, map[], map[], map[], map[])

  function GetProject(m: map<string, ProjectTally>, k: string): ProjectTally
  {
    if k in m then m[k] else EmptyProjectTally
  }

  /** What one issue does to a project's counters: bugs take precedence over features. */
  function ProjectTallyStep(p: ProjectTally, issue: Issue): ProjectTally
  {
    var bug := HasBugLabel(issue);
    ProjectTally(
      p.total + 1,
      p.bugs + Inc(bug),
      p.features + Inc(!bug && HasFeatureLabel(issue)),
      p.completed + Inc(IsCompleted(issue)),
      p.inProgress + Inc(!IsCompleted(issue) && IsInProgress(issue)))
  }

  /** IssueMetrics.update_from_issue on the value of the fields. */
  function IssueStep(t: IssueTally, issue: Issue): IssueTally
  {
    var bug := HasBugLabel(issue);
    var feature := !bug && HasFeatureLabel(issue);
    var done := IsCompleted(issue);
    IssueTally(
      t.totalCreated + 1,
      t.totalCompleted + Inc(done),
      t.totalInProgress + Inc(!done && IsInProgress(issue)),
      t.bugsCreated + Inc(bug),
      t.bugsCompleted + Inc(bug && done),
      t.featuresCreated + Inc(feature),
      t.featuresCompleted + Inc(feature && done),
      PriorityCounts(t.byPriority, issue),
      Bump(t.byState, StateName(issue), 1),
      TeamCounts(t.byTeam, issue),
      ProjectCounts(t.byProject, issue))
  }

  /** by_priority: one more under the issue's priority, if it has one. */
  function PriorityCounts(m: map<int, int>, issue: Issue): map<int, int>
  {
    if PriorityKey(issue).Some? then Bump(m, PriorityKey(issue).value, 1) else m
  }

  /** by_team: one more under the issue's team key, if it has one. */
  function TeamCounts(m: map<string, int>, issue: Issue): map<string, int>
  {
    if TeamKey(issue).Some? then Bump(m, TeamKey(issue).value, 1) else m
  }

  /** by_project: the issue's project, if it has one, takes the issue. */
  function ProjectCounts(m: map<string, ProjectTally>, issue: Issue): map<string, ProjectTally>
  {
    if ProjectKey(issue).Some? then
      var k := ProjectKey(issue).value;
      m[k := ProjectTallyStep(GetProject(m, k), issue)]
    else m
  }

  ghost predicate ProjectTallyOk(p: ProjectTally)
  {
    0 <= p.bugs && 0 <= p.features && 0 <= p.completed && 0 <= p.inProgress
    && p.bugs + p.features <= p.total && p.completed + p.inProgress <= p.total
  }

  /** The relations between IssueMetrics counters that every update keeps. */
  ghost predicate IssueCountsOk(
    totalCreated: int, totalCompleted: int, totalInProgress: int,
    bugsCreated: int, bugsCompleted: int, featuresCreated: int, featuresCompleted: int,
    byPriority: map<int, int>, byState: map<string, int>, byProject: map<string, ProjectTally>)
  {
    && 0 <= totalCompleted && 0 <= totalInProgress
    && 0 <= bugsCompleted <= bugsCreated && 0 <= featuresCompleted <= featuresCreated
    && totalCompleted + totalInProgress <= totalCreated
    && bugsCreated + featuresCreated <= totalCreated
    && (forall k :: k in byState ==> byState[k] >= 0)
    && 0 !in byPriority
    && (forall k :: k in byProject ==> ProjectTallyOk(byProject[k]))
  }

  ghost predicate IssueCountersOk(t: IssueTally)
  {
    IssueCountsOk(t.totalCreated, t.totalCompleted, t.totalInProgress, t.bugsCreated, t.bugsCompleted,
      t.featuresCreated, t.featuresCompleted, t.byPriority, t.byState, t.byProject)
  }

  /** The counter relations, and the state distribution adds up to the number of issues. */
  ghost predicate IssueTallyOk(t: IssueTally)
  {
    IssueCountersOk(t) && MapSum(t.byState) == t.totalCreated
  }

  /**
   * One update adds one issue and one to exactly one state name (the issue's,
   * or "Unknown"), so the state distribution keeps adding up.
   */
  lemma IssueStepCountsState(t: IssueTally, issue: Issue)
    ensures IssueStep(t, issue).totalCreated == t.totalCreated + 1
    ensures MapSum(IssueStep(t, issue).byState) == MapSum(t.byState) + 1
    ensures Get(IssueStep(t, issue).byState, StateName(issue)) == Get(t.byState, StateName(issue)) + 1
    ensures forall s :: s != StateName(issue) ==> Get(IssueStep(t, issue).byState, s) == Get(t.byState, s)
  {
    MapSumBump(t.byState, StateName(issue), 1);
  }

  /** One update keeps every counter relation and the state distribution's total. */
  lemma IssueStepKeepsTally(t: IssueTally, issue: Issue)
    requires IssueTallyOk(t)
    ensures IssueTallyOk(IssueStep(t, issue))
  {
    IssueStepCountsState(t, issue);
    IssueStepKeepsCounters(t, issue);
  }

  lemma IssueStepKeepsCounters(t: IssueTally, issue: Issue)
    requires IssueCountersOk(t)
    ensures IssueCountersOk(IssueStep(t, issue))
  {
    var r := IssueStep(t, issue);
    forall k | k in r.byProject ensures ProjectTallyOk(r.byProject[k]) {
      if ProjectKey(issue).Some? && k == ProjectKey(issue).value {
        assert r.byProject[k] == ProjectTallyStep(GetProject(t.byProject, k), issue);
      }
    }
  }

  /** Bug takes precedence: a bug-labelled issue is never counted as a feature. */
  lemma BugExcludesFeature(t: IssueTally, issue: Issue)
    requires HasBugLabel(issue)
    ensures IssueStep(t, issue).featuresCreated == t.featuresCreated
    ensures IssueStep(t, issue).bugsCreated == t.bugsCreated + 1
  {
  }

  datatype IssueStats = IssueStats(
    totalIssues: int, completionRate: real, bugRate: real, featuresToBugsRatio: real, inProgressRate: real)

  /** IssueMetrics.get_stats (the distributions are the tally's maps). */
  function IssueStatsOf(t: IssueTally): (s: IssueStats)
    ensures s.totalIssues == t.totalCreated
    ensures t.totalCreated == 0 ==> s.completionRate == 0.0 && s.bugRate == 0.0 && s.inProgressRate == 0.0
    ensures t.bugsCreated == 0 ==> s.featuresToBugsRatio == 0.0
    ensures t.totalCreated > 0 ==> s.completionRate * (t.totalCreated as real) == 100.0 * t.totalCompleted as real
    ensures IssueCountersOk(t) ==> 0.0 <= s.completionRate + s.inProgressRate <= 100.0
    ensures IssueCountersOk(t) ==> 0.0 <= s.bugRate <= 100.0
  {
    PercentAdd(t.totalCompleted, t.totalInProgress, t.totalCreated);
    IssueStats(
      t.totalCreated,
      Percent(t.totalCompleted, t.totalCreated),
      Percent(t.bugsCreated, t.totalCreated),
      Ratio(t.featuresCreated, t.bugsCreated),
      Percent(t.totalInProgress, t.totalCreated))
  }

  class IssueMetrics {
    var totalCreated: int
    var totalCompleted: int
    var totalInProgress: int
    var bugsCreated: int
    var bugsCompleted: int
    var featuresCreated: int
    var featuresCompleted: int
    var byPriority: map<int, int>
    var byState: map<string, int>
    var byTeam: map<string, int>
    var byProject: map<string, ProjectTally>

    function State(): IssueTally
      reads this
    {
      IssueTally(totalCreated, totalCompleted, totalInProgress, bugsCreated, bugsCompleted,
        featuresCreated, featuresCompleted, byPriority, byState, byTeam, byProject)
    }

    ghost predicate Valid()
      reads this
    {
      IssueCountsOk(totalCreated, totalCompleted, totalInProgress, bugsCreated, bugsCompleted,
        featuresCreated, featuresCompleted, byPriority, byState, byProject)
    }

    constructor ()
      ensures State() == EmptyIssueTally && Valid()
    {
      totalCreated, totalCompleted, totalInProgress := 0, 0, 0;
      bugsCreated, bugsCompleted, featuresCreated, featuresCompleted := 0, 0, 0, 0;
      byPriority, byState, byTeam, byProject := map[], map[], map[], map[];
    }

    method UpdateFromIssue(issue: Issue)
      requires Valid()
      modifies this
      ensures Valid()
      ensures State() == IssueStep(old(State()), issue)
    {
      IssueStepKeepsCounters(State(), issue);
      ghost var before := State();
      CountCreated(issue, before);
      CountStateType(issue, before);
      CountKind(issue, before);
      CountKeys(issue, before);
    }

    /** Every issue is created once and counted under its state name. */
    method CountCreated(issue: Issue, ghost t: IssueTally)
      requires totalCreated == t.totalCreated && byState == t.byState
      modifies this`totalCreated, this`byState
      ensures totalCreated == IssueStep(t, issue).totalCreated && byState == IssueStep(t, issue).byState
    {
      totalCreated := totalCreated + 1;
      byState := Bump(byState, StateName(issue), 1);
    }

    /** The completed / in-progress split on the state type. */
    method CountStateType(issue: Issue, ghost t: IssueTally)
      requires totalCompleted == t.totalCompleted && totalInProgress == t.totalInProgress
      modifies this`totalCompleted, this`totalInProgress
      ensures totalCompleted == IssueStep(t, issue).totalCompleted
      ensures totalInProgress == IssueStep(t, issue).totalInProgress
    {
      if IsCompleted(issue) {
        totalCompleted := totalCompleted + 1;
      } else if IsInProgress(issue) {
        totalInProgress := totalInProgress + 1;
      }
    }

    /** The bug / feature split on the labels, bugs first. */
    method CountKind(issue: Issue, ghost t: IssueTally)
      requires bugsCreated == t.bugsCreated && bugsCompleted == t.bugsCompleted
      requires featuresCreated == t.featuresCreated && featuresCompleted == t.featuresCompleted
      modifies this`bugsCreated, this`bugsCompleted, this`featuresCreated, this`featuresCompleted
      ensures bugsCreated == IssueStep(t, issue).bugsCreated && bugsCompleted == IssueStep(t, issue).bugsCompleted
      ensures featuresCreated == IssueStep(t, issue).featuresCreated
      ensures featuresCompleted == IssueStep(t, issue).featuresCompleted
    {
      var done := IsCompleted(issue);
      if HasBugLabel(issue) {
        bugsCreated := bugsCreated + 1;
        if done {
          bugsCompleted := bugsCompleted + 1;
        }
      } else if HasFeatureLabel(issue) {
        featuresCreated := featuresCreated + 1;
        if done {
          featuresCompleted := featuresCompleted + 1;
        }
      }
    }

    /** The priority, team and project distributions. */
    method CountKeys(issue: Issue, ghost t: IssueTally)
      requires byPriority == t.byPriority && byTeam == t.byTeam && byProject == t.byProject
      modifies this`byPriority, this`byTeam, this`byProject
      ensures byPriority == PriorityCounts(t.byPriority, issue)
      ensures byTeam == TeamCounts(t.byTeam, issue)
      ensures byProject == ProjectCounts(t.byProject, issue)
    {
      var priority := PriorityKey(issue);
      if priority.Some? {
        byPriority := Bump(byPriority, priority.value, 1);
      }
      var team := TeamKey(issue);
      if team.Some? {
        byTeam := Bump(byTeam, team.value, 1);
      }
      var project := ProjectKey(issue);
      if project.Some? {
        byProject := byProject[project.value := ProjectTallyStep(GetProject(byProject, project.value), issue)];
      }
    }
  }

  // ---------------------------------------------------------------- CycleTimeMetrics

  datatype CycleTally = CycleTally(
    cycleTimes: seq<int>, timeToTriage: seq<int>, timeToStart: seq<int>, timeInProgress: seq<int>,
    timeInReview: seq<int>, blockedTime: seq<int>, byTeam: map<string, seq<int>>, byPriority: map<int, seq<int>>)

  const EmptyCycleTally := CycleTally([], [], [], [], [], [], map[], map[])

  function Append<K>(m: map<K, seq<int>>, k: K, x: int): (r: map<K, seq<int>>)
    ensures r.Keys == m.Keys + {k}
    ensures r[k] == (if k in m then m[k] else []) + [x]
    ensures forall j :: j in m && j != k ==> r[j] == m[j]
  {
    m[k := (if k in m then m[k] else []) + [x]]
  }

  /**
   * The instant of the first entry at or after position j that is later than
   * `start` and leaves a state named "blocked" (ignoring case).
   */
  function Unblocked(history: seq<HistoryEntry>, start: int, j: nat): (r: Option<nat>)
    ensures r.Some? ==> (j <= r.value < |history| && history[r.value].createdAt > start
      && Lower(history[r.value].fromState) == "blocked")
    ensures r.Some? ==> forall k :: j <= k < r.value ==>
      !(history[k].createdAt > start && Lower(history[k].fromState) == "blocked")
    ensures r.None? ==> forall k :: j <= k < |history| ==>
      !(history[k].createdAt > start && Lower(history[k].fromState) == "blocked")
    decreases |history| - j
  {
    if j >= |history| then None
    else if history[j].createdAt > start && Lower(history[j].fromState) == "blocked" then Some(j)
    else Unblocked(history, start, j + 1)
  }

  /** The blocked time contributed by the entry at position i: until the first later unblocking. */
  function BlockedSpan(history: seq<HistoryEntry>, i: nat): (d: int)
    requires i < |history|
    ensures d >= 0
  {
    if Lower(history[i].toState) == "blocked" then
      match Unblocked(history, history[i].createdAt, 0)
      case Some(k) => history[k].createdAt - history[i].createdAt
      case None => 0
    else 0
  }

  /** The blocked time of the entries from position i on. */
  function BlockedFrom(history: seq<HistoryEntry>, i: nat): int
    requires i <= |history|
    decreases |history| - i
  {
    if i == |history| then 0 else BlockedSpan(history, i) + BlockedFrom(history, i + 1)
  }

  /** Blocked time is never negative, and is 0 when nothing ever entered "blocked". */
  lemma {:induction false} BlockedFromBounds(history: seq<HistoryEntry>, i: nat)
    requires i <= |history|
    ensures BlockedFrom(history, i) >= 0
    ensures (forall k :: i <= k < |history| ==> Lower(history[k].toState) != "blocked") ==> BlockedFrom(history, i) == 0
    decreases |history| - i
  {
    if i < |history| {
      BlockedFromBounds(history, i + 1);
    }
  }

  /** CycleTimeMetrics.update_from_issue on the value of the fields, given the blocked time. */
  function CycleStep(t: CycleTally, issue: Issue): CycleTally
  {
    var blocked := BlockedFrom(issue.history, 0);
    var t1 :=
      if issue.completedAt.Some? then
        var c := issue.completedAt.value - issue.createdAt;
        t.(cycleTimes := t.cycleTimes + [c],
           byTeam := if TeamKey(issue).Some? then Append(t.byTeam, TeamKey(issue).value, c) else t.byTeam,
           byPriority := if PriorityKey(issue).Some? then Append(t.byPriority, PriorityKey(issue).value, c) else t.byPriority)
      else t;
    var t2 :=
      if issue.startedAt.Some? then
        t1.(timeToStart := t1.timeToStart + [issue.startedAt.value - issue.createdAt],
            timeInProgress := if issue.completedAt.Some? then t1.timeInProgress + [issue.completedAt.value - issue.startedAt.value]
                              else t1.timeInProgress)
      else t1;
    if blocked > 0 then t2.(blockedTime := t2.blockedTime + [blocked]) else t2
  }

  ghost predicate CycleSamplesOk(
    cycleTimes: seq<int>, timeToTriage: seq<int>, timeToStart: seq<int>, timeInProgress: seq<int>,
    timeInReview: seq<int>, blockedTime: seq<int>)
  {
    && |timeInProgress| <= |timeToStart|
    && |timeInProgress| <= |cycleTimes|
    && (forall i :: 0 <= i < |blockedTime| ==> blockedTime[i] > 0)
    && timeToTriage == [] && timeInReview == []
  }

  ghost predicate CycleTallyOk(t: CycleTally)
  {
    CycleSamplesOk(t.cycleTimes, t.timeToTriage, t.timeToStart, t.timeInProgress, t.timeInReview, t.blockedTime)
  }

  /**
   * Only completed issues add a cycle time, only started ones a time to start,
   * only issues both started and completed a time in progress, and only a
   * positive blocked time is recorded.
   */
  lemma CycleStepKeepsTally(t: CycleTally, issue: Issue)
    requires CycleTallyOk(t)
    ensures CycleTallyOk(CycleStep(t, issue))
    ensures |CycleStep(t, issue).cycleTimes| == |t.cycleTimes| + Inc(issue.completedAt.Some?)
    ensures |CycleStep(t, issue).timeToStart| == |t.timeToStart| + Inc(issue.startedAt.Some?)
    ensures |CycleStep(t, issue).timeInProgress| == |t.timeInProgress| + Inc(issue.startedAt.Some? && issue.completedAt.Some?)
    ensures |CycleStep(t, issue).blockedTime| == |t.blockedTime| + Inc(BlockedFrom(issue.history, 0) > 0)
  {
  }

  datatype CycleStats = CycleStats(
    avgCycleTime: real, avgTimeToTriage: real, avgTimeToStart: real, avgTimeInProgress: real,
    avgTimeInReview: real, avgBlockedTime: real,
    teamCycleTimes: map<string, real>, priorityCycleTimes: map<int, real>)

  /**
   * The dictionary comprehension {k: safe_mean(v) for k, v in ...items()}:
   * one entry per key, the mean of its list, 0 for an empty one.
   */
  function MeansOf<K>(m: map<K, seq<int>>): (r: map<K, real>)
    ensures r.Keys == m.Keys
    ensures forall k :: k in m ==> r[k] * (|m[k]| as real) == Sum(m[k]) as real
    ensures forall k :: k in m && m[k] == [] ==> r[k] == 0.0
  {
    map k | k in m :: Mean(m[k])
  }

  /** avg is the mean of xs: times the length it is the sum, and it is 0 for an empty list. */
  predicate IsMean(avg: real, xs: seq<int>)
  {
    avg * (|xs| as real) == Sum(xs) as real && (xs == [] ==> avg == 0.0)
  }

  /** CycleTimeMetrics.get_stats: every average is 0 for an empty list. */
  function CycleStatsOf(t: CycleTally): (s: CycleStats)
    ensures s.avgCycleTime * (|t.cycleTimes| as real) == Sum(t.cycleTimes) as real
    ensures t.cycleTimes == [] ==> s.avgCycleTime == 0.0
    ensures t.timeToStart == [] ==> s.avgTimeToStart == 0.0
    ensures t.timeInProgress == [] ==> s.avgTimeInProgress == 0.0
    ensures t.blockedTime == [] ==> s.avgBlockedTime == 0.0
    ensures t.timeToTriage == [] ==> s.avgTimeToTriage == 0.0
    ensures t.timeInReview == [] ==> s.avgTimeInReview == 0.0
    ensures CycleTallyOk(t) ==> s.avgTimeToTriage == 0.0 && s.avgTimeInReview == 0.0
    ensures CycleTallyOk(t) ==> s.avgBlockedTime >= 0.0
    ensures s.teamCycleTimes == MeansOf(t.byTeam) && s.priorityCycleTimes == MeansOf(t.byPriority)
  {
    BlockedMeanNonNegative(t);
    CycleStats(Mean(t.cycleTimes), Mean(t.timeToTriage), Mean(t.timeToStart), Mean(t.timeInProgress),
      Mean(t.timeInReview), Mean(t.blockedTime),
      MeansOf(t.byTeam), MeansOf(t.byPriority))
  }

  /** Each of get_stats' six averages is the mean of its list, 0 for an empty one. */
  lemma CycleStatsMeans(t: CycleTally)
    ensures var s := CycleStatsOf(t);
      && IsMean(s.avgCycleTime, t.cycleTimes) && IsMean(s.avgTimeToTriage, t.timeToTriage)
      && IsMean(s.avgTimeToStart, t.timeToStart) && IsMean(s.avgTimeInProgress, t.timeInProgress)
      && IsMean(s.avgTimeInReview, t.timeInReview) && IsMean(s.avgBlockedTime, t.blockedTime)
  {
    MeanIsMean(t.cycleTimes);
    MeanIsMean(t.timeToTriage);
    MeanIsMean(t.timeToStart);
    MeanIsMean(t.timeInProgress);
    MeanIsMean(t.timeInReview);
    MeanIsMean(t.blockedTime);
  }

  lemma MeanIsMean(xs: seq<int>)
    ensures IsMean(Mean(xs), xs)
  {
  }

  lemma BlockedMeanNonNegative(t: CycleTally)
    ensures CycleTallyOk(t) ==> Mean(t.blockedTime) >= 0.0
  {
    if CycleTallyOk(t) {
      SumNonNegative(t.blockedTime);
    }
  }

  class CycleTimeMetrics {
    var cycleTimes: seq<int>
    var timeToTriage: seq<int>
    var timeToStart: seq<int>
    var timeInProgress: seq<int>
    var timeInReview: seq<int>
    var blockedTime: seq<int>
    var byTeam: map<string, seq<int>>
    var byPriority: map<int, seq<int>>

    function State(): CycleTally
      reads this
    {
      CycleTally(cycleTimes, timeToTriage, timeToStart, timeInProgress, timeInReview, blockedTime, byTeam, byPriority)
    }

    ghost predicate Valid()
      reads this
    {
      CycleSamplesOk(cycleTimes, timeToTriage, timeToStart, timeInProgress, timeInReview, blockedTime)
    }

    constructor ()
      ensures State() == EmptyCycleTally && Valid()
    {
      cycleTimes, timeToTriage, timeToStart, timeInProgress, timeInReview, blockedTime := [], [], [], [], [], [];
      byTeam, byPriority := map[], map[];
    }

    method UpdateFromIssue(issue: Issue)
      requires Valid()
      modifies this
      ensures Valid()
      ensures State() == CycleStep(old(State()), issue)
    {
      CycleStepKeepsTally(State(), issue);
      ghost var after := CycleStep(State(), issue);
      RecordCycleTime(issue);
      RecordStart(issue);
      var blocked := BlockedDuration(issue.history);
      if blocked > 0 {
        blockedTime := blockedTime + [blocked];
      }
      assert State() == after;
    }

    /** The cycle time of a completed issue, also filed under its team and priority. */
    method RecordCycleTime(issue: Issue)
      modifies this`cycleTimes, this`byTeam, this`byPriority
      ensures cycleTimes == CycleStep(old(State()), issue).cycleTimes
      ensures byTeam == CycleStep(old(State()), issue).byTeam
      ensures byPriority == CycleStep(old(State()), issue).byPriority
    {
      if issue.completedAt.Some? {
        var cycle := issue.completedAt.value - issue.createdAt;
        cycleTimes := cycleTimes + [cycle];
        var team := TeamKey(issue);
        if team.Some? {
          byTeam := Append(byTeam, team.value, cycle);
        }
        var priority := PriorityKey(issue);
        if priority.Some? {
          byPriority := Append(byPriority, priority.value, cycle);
        }
      }
    }

    /** The time to start of a started issue, and its time in progress once completed too. */
    method RecordStart(issue: Issue)
      modifies this`timeToStart, this`timeInProgress
      ensures timeToStart == CycleStep(old(State()), issue).timeToStart
      ensures timeInProgress == CycleStep(old(State()), issue).timeInProgress
    {
      if issue.startedAt.Some? {
        timeToStart := timeToStart + [issue.startedAt.value - issue.createdAt];
        if issue.completedAt.Some? {
          timeInProgress := timeInProgress + [issue.completedAt.value - issue.startedAt.value];
        }
      }
    }

    /** The nested loop over the history: each entry into "blocked" runs until the first later exit. */
    static method BlockedDuration(history: seq<HistoryEntry>) returns (total: int)
      ensures total == BlockedFrom(history, 0)
    {
      total := 0;
      var i := 0;
      while i < |history|
        invariant 0 <= i <= |history|
        invariant total + BlockedFrom(history, i) == BlockedFrom(history, 0)
      {
        if Lower(history[i].toState) == "blocked" {
          var start := history[i].createdAt;
          var j := 0;
          while j < |history|
            invariant 0 <= j <= |history|
            invariant Unblocked(history, start, j) == Unblocked(history, start, 0)
          {
            if history[j].createdAt > start && Lower(history[j].fromState) == "blocked" {
              total := total + (history[j].createdAt - start);
              break;
            }
            j := j + 1;
          }
        }
        i := i + 1;
      }
    }
  }

  // ---------------------------------------------------------------- EstimationMetrics

  datatype Accuracy = Accurate | Under | Over

  /** Within 20% either way is accurate; more than 20% over the expectation is an underestimate. */
  function Classify(variance: real): (a: Accuracy)
    ensures a == Accurate <==> -20.0 <= variance <= 20.0
    ensures a == Under <==> variance > 20.0
    ensures a == Over <==> variance < -20.0
  {
    if (if variance < 0.0 then -variance else variance) <= 20.0 then Accurate
    else if variance > 20.0 then Under
    else Over
  }

  /** (actual - expected) / expected * 100 with actual in seconds and expected in hours. */
  function VariancePercent(actualSeconds: int, expectedHours: int): real
    requires expectedHours != 0
  {
    (actualSeconds as real - 3600.0 * expectedHours as real) / (3600.0 * expectedHours as real) * 100.0
  }

  datatype TeamEstimate = TeamEstimate(total: nat, accurate: nat, under: nat, over: nat, variance: seq<real>)

  const EmptyTeamEstimate := TeamEstimate(0, 0, 0, 0, [])

  datatype EstimationTally = EstimationTally(
    totalEstimated: nat, accurate: nat, under: nat, over: nat, variances: seq<real>,
    byTeam: map<string, TeamEstimate>)

  const EmptyEstimationTally := EstimationTally(0, 0, 0, 0, [], map[])

  function TeamEstimateStep(e: TeamEstimate, v: real): TeamEstimate
  {
    var a := Classify(v);
    TeamEstimate(e.total + 1, e.accurate + Inc(a == Accurate), e.under + Inc(a == Under), e.over + Inc(a == Over),
      e.variance + [v])
  }

  /** An estimate counts when it is present and non-zero and the actual time is positive. */
  predicate Estimates(issue: Issue, actualSeconds: int)
  {
    issue.estimate.Some? && issue.estimate.value != 0 && actualSeconds > 0
  }

  /** EstimationMetrics.update_from_issue on the value of the fields; expected hours are twice the estimate. */
  function EstimationStep(t: EstimationTally, issue: Issue, actualSeconds: int): EstimationTally
  {
    if !Estimates(issue, actualSeconds) then t
    else
      var v := VariancePercent(actualSeconds, issue.estimate.value * 2);
      var a := Classify(v);
      EstimationTally(
        t.totalEstimated + 1, t.accurate + Inc(a == Accurate), t.under + Inc(a == Under), t.over + Inc(a == Over),
        t.variances + [v],
        if TeamKey(issue).Some? then
          var k := TeamKey(issue).value;
          t.byTeam[k := TeamEstimateStep(if k in t.byTeam then t.byTeam[k] else EmptyTeamEstimate, v)]
        else t.byTeam)
  }

  ghost predicate TeamEstimateOk(e: TeamEstimate)
  {
    e.accurate + e.under + e.over == e.total == |e.variance|
  }

  /** The three classes partition the estimated issues, overall and per team. */
  ghost predicate EstimationCountsOk(
    totalEstimated: nat, accurate: nat, under: nat, over: nat, variances: seq<real>, byTeam: map<string, TeamEstimate>)
  {
    && accurate + under + over == totalEstimated == |variances|
    && (forall k :: k in byTeam ==> TeamEstimateOk(byTeam[k]))
  }

  ghost predicate EstimationTallyOk(t: EstimationTally)
  {
    EstimationCountsOk(t.totalEstimated, t.accurate, t.under, t.over, t.variances, t.byTeam)
  }

  /** No estimate or no positive actual time changes nothing; otherwise one class grows by one. */
  lemma EstimationStepKeepsTally(t: EstimationTally, issue: Issue, actualSeconds: int)
    requires EstimationTallyOk(t)
    ensures EstimationTallyOk(EstimationStep(t, issue, actualSeconds))
    ensures !Estimates(issue, actualSeconds) ==> EstimationStep(t, issue, actualSeconds) == t
    ensures Estimates(issue, actualSeconds) ==> EstimationStep(t, issue, actualSeconds).totalEstimated == t.totalEstimated + 1
  {
    var r := EstimationStep(t, issue, actualSeconds);
    if Estimates(issue, actualSeconds) && TeamKey(issue).Some? {
      var k := TeamKey(issue).value;
      forall j | j in r.byTeam ensures TeamEstimateOk(r.byTeam[j]) {
        if j != k {
          assert r.byTeam[j] == t.byTeam[j];
        }
      }
    }
  }

  /** One team's entry of `team_accuracy`. */
  datatype TeamAccuracy = TeamAccuracy(accuracyRate: real, avgVariance: real)

  datatype EstimationStats = EstimationStats(
    totalEstimated: int, accuracyRate: real, underestimateRate: real, overestimateRate: real, avgVariance: real,
    teamAccuracy: map<string, TeamAccuracy>)

  /** The accuracy rate and mean variance of one team's estimates. */
  function TeamAccuracyOf(e: TeamEstimate): (a: TeamAccuracy)
    ensures e.total == 0 ==> a.accuracyRate == 0.0
    ensures e.total > 0 ==> a.accuracyRate * (e.total as real) == 100.0 * e.accurate as real
    ensures TeamEstimateOk(e) ==> 0.0 <= a.accuracyRate <= 100.0
    ensures e.variance != [] ==> a.avgVariance * (|e.variance| as real) == RealSum(e.variance)
    ensures e.variance == [] ==> a.avgVariance == 0.0
  {
    TeamAccuracy(Percent(e.accurate, e.total), RealMean(e.variance))
  }

  /**
   * EstimationMetrics.get_stats: the three rates add up to 100 once anything
   * was estimated, and `team_accuracy` has one entry per team seen.
   */
  function EstimationStatsOf(t: EstimationTally): (s: EstimationStats)
    ensures t.totalEstimated <= 0 ==> s.accuracyRate == 0.0 && s.underestimateRate == 0.0 && s.overestimateRate == 0.0
    ensures EstimationTallyOk(t) && t.totalEstimated > 0 ==>
      s.accuracyRate + s.underestimateRate + s.overestimateRate == 100.0
    ensures EstimationTallyOk(t) ==> 0.0 <= s.accuracyRate <= 100.0
    ensures t.variances != [] ==> s.avgVariance * (|t.variances| as real) == RealSum(t.variances)
    ensures s.teamAccuracy.Keys == t.byTeam.Keys
    ensures forall k :: k in t.byTeam ==> s.teamAccuracy[k] == TeamAccuracyOf(t.byTeam[k])
  {
    PercentAdd(t.accurate, t.under, t.totalEstimated);
    PercentAdd(t.accurate + t.under, t.over, t.totalEstimated);
    EstimationStats(t.totalEstimated, Percent(t.accurate, t.totalEstimated), Percent(t.under, t.totalEstimated),
      Percent(t.over, t.totalEstimated), RealMean(t.variances),
      map k | k in t.byTeam :: TeamAccuracyOf(t.byTeam[k]))
  }

  function RealSum(s: seq<real>): real
  {
    if s == [] then 0.0 else RealSum(s[..|s| - 1]) + s[|s| - 1]
  }

  /** statistics.mean over exact reals, 0 for the empty list. */
  function RealMean(s: seq<real>): (m: real)
    ensures s != [] ==> m * (|s| as real) == RealSum(s)
    ensures s == [] ==> m == 0.0
  {
    if s == [] then 0.0 else RealSum(s) / |s| as real
  }

  class EstimationMetrics {
    var totalEstimated: nat
    var accurate: nat
    var under: nat
    var over: nat
    var variances: seq<real>
    var byTeam: map<string, TeamEstimate>

    function State(): EstimationTally
      reads this
    {
      EstimationTally(totalEstimated, accurate, under, over, variances, byTeam)
    }

    ghost predicate Valid()
      reads this
    {
      EstimationCountsOk(totalEstimated, accurate, under, over, variances, byTeam)
    }

    constructor ()
      ensures State() == EmptyEstimationTally && Valid()
    {
      totalEstimated, accurate, under, over, variances, byTeam := 0, 0, 0, 0, [], map[];
    }

    method UpdateFromIssue(issue: Issue, actualSeconds: int)
      requires Valid()
      modifies this
      ensures Valid()
      ensures State() == EstimationStep(old(State()), issue, actualSeconds)
    {
      EstimationStepKeepsTally(State(), issue, actualSeconds);
      if issue.estimate.None? || issue.estimate.value == 0 || actualSeconds <= 0 {
        return;
      }
      var expected := issue.estimate.value * 2;
      var variance := VariancePercent(actualSeconds, expected);
      totalEstimated := totalEstimated + 1;
      variances := variances + [variance];
      var a := Classify(variance);
      if a == Accurate {
        accurate := accurate + 1;
      } else if a == Under {
        under := under + 1;
      } else {
        over := over + 1;
      }
      var team := TeamKey(issue);
      if team.Some? {
        var stats := if team.value in byTeam then byTeam[team.value] else EmptyTeamEstimate;
        byTeam := byTeam[team.value := TeamEstimateStep(stats, variance)];
      }
    }
  }

  // ---------------------------------------------------------------- TeamMetrics

  datatype TeamProject = TeamProject(totalIssues: int, completedIssues: int, bugs: int)

  datatype TeamTally = TeamTally(
    issuesCreated: int, issuesCompleted: int, bugsCreated: int, bugsCompleted: int,
    avgCycleTime: real, estimationAccuracy: real, members: set<string>, projects: map<string, TeamProject>)

  const EmptyTeamTally := TeamTally(0, 0, 0, 0, 0.0, 0.0, {}, map[])

  /** TeamMetrics.update_from_issue on the value of the fields. */
  function TeamStep(t: TeamTally, issue: Issue): TeamTally
  {
    var done := IsCompleted(issue);
    var bug := HasBugLabel(issue);
    t.(issuesCreated := t.issuesCreated + 1,
       issuesCompleted := t.issuesCompleted + Inc(done),
       bugsCreated := t.bugsCreated + Inc(bug),
       bugsCompleted := t.bugsCompleted + Inc(bug && done),
       members := if AssigneeName(issue).Some? then t.members + {AssigneeName(issue).value} else t.members,
       projects :=
         if ProjectKey(issue).Some? then
           var k := ProjectKey(issue).value;
           var p := if k in t.projects then t.projects[k] else TeamProject(0, 0, 0);
           t.projects[k := TeamProject(p.totalIssues + 1, p.completedIssues + Inc(done), p.bugs + Inc(bug))]
         else t.projects)
  }

  ghost predicate TeamCountsOk(
    issuesCreated: int, issuesCompleted: int, bugsCreated: int, bugsCompleted: int, projects: map<string, TeamProject>)
  {
    && 0 <= issuesCompleted <= issuesCreated
    && 0 <= bugsCompleted <= bugsCreated <= issuesCreated
    && (forall k :: k in projects ==>
          0 <= projects[k].completedIssues <= projects[k].totalIssues
          && 0 <= projects[k].bugs <= projects[k].totalIssues)
  }

  ghost predicate TeamTallyOk(t: TeamTally)
  {
    TeamCountsOk(t.issuesCreated, t.issuesCompleted, t.bugsCreated, t.bugsCompleted, t.projects)
  }

  /** The counters stay ordered, and a project's counters appear the first time its key is seen. */
  lemma TeamStepKeepsTally(t: TeamTally, issue: Issue)
    requires TeamTallyOk(t)
    ensures TeamTallyOk(TeamStep(t, issue))
    ensures TeamStep(t, issue).projects.Keys ==
      t.projects.Keys + (if ProjectKey(issue).Some? then {ProjectKey(issue).value} else {})
    ensures ProjectKey(issue).Some? && ProjectKey(issue).value !in t.projects ==>
      TeamStep(t, issue).projects[ProjectKey(issue).value].totalIssues == 1
  {
    var r := TeamStep(t, issue);
    if ProjectKey(issue).Some? {
      var k := ProjectKey(issue).value;
      forall j | j in r.projects
        ensures 0 <= r.projects[j].completedIssues <= r.projects[j].totalIssues
        ensures 0 <= r.projects[j].bugs <= r.projects[j].totalIssues
      {
        if j != k {
          assert r.projects[j] == t.projects[j];
        }
      }
    }
  }

  datatype TeamStats = TeamStats(
    totalIssues: int, completedIssues: int, completionRate: real,
    totalBugs: int, completedBugs: int, resolutionRate: real, membersCount: int)

  /** TeamMetrics.get_stats. */
  function TeamStatsOf(t: TeamTally): (s: TeamStats)
    ensures s.membersCount == |t.members|
    ensures TeamTallyOk(t) ==> 0.0 <= s.completionRate <= 100.0 && 0.0 <= s.resolutionRate <= 100.0
    ensures t.issuesCreated == 0 ==> s.completionRate == 0.0
    ensures t.bugsCreated == 0 ==> s.resolutionRate == 0.0
  {
    TeamStats(t.issuesCreated, t.issuesCompleted, Percent(t.issuesCompleted, t.issuesCreated),
      t.bugsCreated, t.bugsCompleted, Percent(t.bugsCompleted, t.bugsCreated), |t.members|)
  }

  class TeamMetrics {
    const name: Option<string>
    var issuesCreated: int
    var issuesCompleted: int
    var bugsCreated: int
    var bugsCompleted: int
    var avgCycleTime: real
    var estimationAccuracy: real
    var members: set<string>
    var projects: map<string, TeamProject>

    function State(): TeamTally
      reads this
    {
      TeamTally(issuesCreated, issuesCompleted, bugsCreated, bugsCompleted, avgCycleTime, estimationAccuracy, members, projects)
    }

    ghost predicate Valid()
      reads this
    {
      TeamCountsOk(issuesCreated, issuesCompleted, bugsCreated, bugsCompleted, projects)
    }

    constructor (name: Option<string>)
      ensures this.name == name && State() == EmptyTeamTally && Valid()
    {
      this.name := name;
      issuesCreated, issuesCompleted, bugsCreated, bugsCompleted := 0, 0, 0, 0;
      avgCycleTime, estimationAccuracy := 0.0, 0.0;
      members, projects := {}, map[];
    }

    method UpdateFromIssue(issue: Issue)
      requires Valid()
      modifies this
      ensures Valid()
      ensures State() == TeamStep(old(State()), issue)
    {
      TeamStepKeepsTally(State(), issue);
      ghost var before := State();
      CountIssue(issue, before);
      CountMember(issue, before);
      CountProject(issue, before);
    }

    /** The issue and bug counters; a completed bug counts among the completed issues and the completed bugs. */
    method CountIssue(issue: Issue, ghost t: TeamTally)
      requires issuesCreated == t.issuesCreated && issuesCompleted == t.issuesCompleted
      requires bugsCreated == t.bugsCreated && bugsCompleted == t.bugsCompleted
      modifies this`issuesCreated, this`issuesCompleted, this`bugsCreated, this`bugsCompleted
      ensures issuesCreated == TeamStep(t, issue).issuesCreated
      ensures issuesCompleted == TeamStep(t, issue).issuesCompleted
      ensures bugsCreated == TeamStep(t, issue).bugsCreated
      ensures bugsCompleted == TeamStep(t, issue).bugsCompleted
    {
      var done := IsCompleted(issue);
      issuesCreated := issuesCreated + 1;
      if done {
        issuesCompleted := issuesCompleted + 1;
      }
      var isBug := HasBugLabel(issue);
      if isBug {
        bugsCreated := bugsCreated + 1;
        if done {
          bugsCompleted := bugsCompleted + 1;
        }
      }
    }

    /** The assignee, when there is one, joins the members. */
    method CountMember(issue: Issue, ghost t: TeamTally)
      requires members == t.members
      modifies this`members
      ensures members == TeamStep(t, issue).members
    {
      var assignee := AssigneeName(issue);
      if assignee.Some? {
        members := members + {assignee.value};
      }
    }

    /** The per-project counters, created the first time a project key is seen. */
    method CountProject(issue: Issue, ghost t: TeamTally)
      requires projects == t.projects
      modifies this`projects
      ensures projects == TeamStep(t, issue).projects
    {
      var project := ProjectKey(issue);
      if project.Some? {
        var k := project.value;
        if k !in projects {
          projects := projects[k := TeamProject(0, 0, 0)];
        }
        var p := projects[k];
        projects := projects[k := TeamProject(p.totalIssues + 1, p.completedIssues + Inc(IsCompleted(issue)), p.bugs + Inc(HasBugLabel(issue)))];
      }
    }
  }

  // ---------------------------------------------------------------- ProjectMetrics

  datatype ProjectState = ProjectState(
    totalIssues: int, completedIssues: int, bugsCount: int, featuresCount: int,
    avgCycleTime: real, teamsInvolved: set<string>, estimationAccuracy: real)

  const EmptyProjectState := ProjectState(0, 0, 0, 0, 0.0, {}, 0.0)

  /** ProjectMetrics.update_from_issue on the value of the fields. */
  function ProjectStep(p: ProjectState, issue: Issue): ProjectState
  {
    var bug := HasBugLabel(issue);
    p.(totalIssues := p.totalIssues + 1,
       completedIssues := p.completedIssues + Inc(IsCompleted(issue)),
       bugsCount := p.bugsCount + Inc(bug),
       featuresCount := p.featuresCount + Inc(!bug && HasFeatureLabel(issue)),
       teamsInvolved := if TeamKey(issue).Some? then p.teamsInvolved + {TeamKey(issue).value} else p.teamsInvolved)
  }

  ghost predicate ProjectCountsOk(totalIssues: int, completedIssues: int, bugsCount: int, featuresCount: int)
  {
    0 <= completedIssues <= totalIssues && 0 <= bugsCount && 0 <= featuresCount
    && bugsCount + featuresCount <= totalIssues
  }

  ghost predicate ProjectStateOk(p: ProjectState)
  {
    ProjectCountsOk(p.totalIssues, p.completedIssues, p.bugsCount, p.featuresCount)
  }

  lemma ProjectStepKeepsState(p: ProjectState, issue: Issue)
    requires ProjectStateOk(p)
    ensures ProjectStateOk(ProjectStep(p, issue))
    ensures ProjectStep(p, issue).totalIssues == p.totalIssues + 1
  {
  }

  /** ProjectMetrics.get_stats' completion rate. */
  function ProjectCompletionRate(p: ProjectState): (r: real)
    ensures p.totalIssues == 0 ==> r == 0.0
    ensures ProjectStateOk(p) ==> 0.0 <= r <= 100.0
  {
    Percent(p.completedIssues, p.totalIssues)
  }

  class ProjectMetrics {
    const key: Option<string>
    const name: string
    var totalIssues: int
    var completedIssues: int
    var bugsCount: int
    var featuresCount: int
    var avgCycleTime: real
    var teamsInvolved: set<string>
    var estimationAccuracy: real

    function State(): ProjectState
      reads this
    {
      ProjectState(totalIssues, completedIssues, bugsCount, featuresCount, avgCycleTime, teamsInvolved, estimationAccuracy)
    }

    ghost predicate Valid()
      reads this
    {
      ProjectCountsOk(totalIssues, completedIssues, bugsCount, featuresCount)
    }

    constructor (key: Option<string>, name: string)
      ensures this.key == key && this.name == name && State() == EmptyProjectState && Valid()
    {
      this.key, this.name := key, name;
      totalIssues, completedIssues, bugsCount, featuresCount := 0, 0, 0, 0;
      avgCycleTime, estimationAccuracy := 0.0, 0.0;
      teamsInvolved := {};
    }

    method UpdateFromIssue(issue: Issue)
      requires Valid()
      modifies this
      ensures Valid()
      ensures State() == ProjectStep(old(State()), issue)
    {
      totalIssues := totalIssues + 1;
      if issue.stateType == Some("completed") {
        completedIssues := completedIssues + 1;
      }
      var isBug := HasBugLabel(issue);
      var isFeature := HasFeatureLabel(issue);
      if isBug {
        bugsCount := bugsCount + 1;
      } else if isFeature {
        featuresCount := featuresCount + 1;
      }
      var team := TeamKey(issue);
      if team.Some? {
        teamsInvolved := teamsInvolved + {team.value};
      }
    }
  }
}

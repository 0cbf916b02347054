// The older issue-tracker report (wellcode_cli/linear_metrics.py): one loop over
// the fetched issue nodes fills a dictionary of counters, lists and
// breakdowns. Fetching the nodes is not part of this model: they arrive as a
// sequence. Cycle times are whole seconds (the source divides by 3600).

module LegacyLinear {
  import opened Common

  /** The fields of an issue node the loop reads; a missing or null value is None. */
  datatype Node = Node(
    stateName: Option<string>,
    stateType: string,
    createdAt: Option<int>,
    completedAt: Option<int>,
    assignee: Option<string>,
    priority: Option<int>)

  datatype Contribution = Contribution(created: int, completed: int)

  /** The dictionary after some of the loop, without issues_created and the average. */
  datatype Tally = Tally(
    completed: int, inProgress: int, cycleTimes: seq<int>,
    users: map<string, Contribution>, priorities: map<Bucket, int>, states: map<string, int>)

  /** The five keys of priority_breakdown. */
  datatype Bucket = Urgent | High | Medium | Low | NoPriority

  /** The key as the dictionary spells it. */
  function BucketName(b: Bucket): string
  {
    match b
    case Urgent => "Urgent"
    case High => "High"
    case Medium => "Medium"
    case Low => "Low"
    case NoPriority => "No Priority"
  }

  const InitialPriorities: map<Bucket, int> :=
    map[Urgent := 0, High := 0, Medium := 0, Low := 0, NoPriority := 0]

  const EmptyTally := Tally(0, 0, [], map[], InitialPriorities, map[])

  /** The breakdown bucket of a priority value: 0 to 4 have one, anything else none. */
  function PriorityBucket(p: Option<int>): (r: Option<Bucket>)
    ensures r.Some? <==> p.Some? && 0 <= p.value <= 4
    ensures p == Some(0) ==> r == Some(NoPriority)
    ensures p == Some(1) ==> r == Some(Urgent)
    ensures p == Some(2) ==> r == Some(High)
    ensures p == Some(3) ==> r == Some(Medium)
    ensures p == Some(4) ==> r == Some(Low)
  {
    if p == Some(0) then Some(NoPriority)
    else if p == Some(1) then Some(Urgent)
    else if p == Some(2) then Some(High)
    else if p == Some(3) then Some(Medium)
    else if p == Some(4) then Some(Low)
    else None
  }

  function NodeState(n: Node): string
  {
    if n.stateName.Some? then n.stateName.value else "Unknown"
  }

  /** The cycle time a node records: completed, both dates present, and a positive difference. */
  function CycleSample(n: Node): (c: Option<int>)
    ensures c.Some? ==> c.value > 0
    ensures c.Some? ==> n.stateType == "completed"
  {
    if n.stateType == "completed" && n.completedAt.Some? && n.createdAt.Some?
       && n.completedAt.value - n.createdAt.value > 0
    then Some(n.completedAt.value - n.createdAt.value)
    else None
  }

  function Credit(users: map<string, Contribution>, n: Node): map<string, Contribution>
  {
    if n.assignee.Some? then
      var u := n.assignee.value;
      var c := if u in users then users[u] else Contribution(0, 0);
      users[u := Contribution(c.created + 1, c.completed + (if n.completedAt.Some? then 1 else 0))]
    else users
  }

  /** One iteration of the loop on the dictionary. */
  function Step(t: Tally, n: Node): Tally
  {
    var completed := n.stateType == "completed";
    var inProgress := !completed && (n.stateType == "started" || n.stateType == "inProgress");
    var sample := CycleSample(n);
    var bucket := PriorityBucket(n.priority);
    Tally(
      t.completed + (if completed then 1 else 0),
      t.inProgress + (if inProgress then 1 else 0),
      if sample.Some? then t.cycleTimes + [sample.value] else t.cycleTimes,
      Credit(t.users, n),
      if bucket.Some? then Bump(t.priorities, bucket.value, 1) else t.priorities,
      Bump(t.states, NodeState(n), 1))
  }

  function Fold(nodes: seq<Node>): Tally
  {
    if nodes == [] then EmptyTally else Step(Fold(nodes[..|nodes| - 1]), nodes[|nodes| - 1])
  }

  datatype Report = Report(
    issuesCreated: int, issuesCompleted: int, issuesInProgress: int, cycleTimes: seq<int>,
    users: map<string, Contribution>, priorities: map<Bucket, int>, states: map<string, int>,
    averageCycleTime: real)

  /** The average with the source's guard: the mean, or 0 when it is negative or there is none. */
  function GuardedMean(s: seq<int>): real
  {
    if s != [] then (if Mean(s) < 0.0 then 0.0 else Mean(s)) else 0.0
  }

  function ReportOf(nodes: seq<Node>): Report
  {
    var t := Fold(nodes);
    Report(|nodes|, t.completed, t.inProgress, t.cycleTimes, t.users, t.priorities, t.states, GuardedMean(t.cycleTimes))
  }

  /** The state breakdown adds up to the number of issues. */
  lemma {:induction false} FoldStates(nodes: seq<Node>)
    ensures MapSum(Fold(nodes).states) == |nodes|
    decreases |nodes|
  {
    if nodes == [] {
      MapSumZero(Fold(nodes).states);
    } else {
      var init := nodes[..|nodes| - 1];
      FoldStates(init);
      MapSumBump(Fold(init).states, NodeState(nodes[|nodes| - 1]), 1);
    }
  }

  /**
   * Completed and in-progress are exclusive, so together they are at most the
   * number of issues; only completed issues with a positive cycle time add one.
   */
  lemma {:induction false} FoldExclusive(nodes: seq<Node>)
    ensures var t := Fold(nodes);
      0 <= t.completed && 0 <= t.inProgress && t.completed + t.inProgress <= |nodes|
      && |t.cycleTimes| <= t.completed
      && forall i :: 0 <= i < |t.cycleTimes| ==> t.cycleTimes[i] > 0
    decreases |nodes|
  {
    if nodes != [] {
      FoldExclusive(nodes[..|nodes| - 1]);
    }
  }

  /** No assignee has more completed issues than issues. */
  lemma {:induction false} FoldUsers(nodes: seq<Node>)
    ensures forall u :: u in Fold(nodes).users ==> 0 <= Fold(nodes).users[u].completed <= Fold(nodes).users[u].created
    decreases |nodes|
  {
    if nodes != [] {
      var init := nodes[..|nodes| - 1];
      var n := nodes[|nodes| - 1];
      FoldUsers(init);
      var before := Fold(init).users;
      var after := Credit(before, n);
      forall u | u in after
        ensures 0 <= after[u].completed <= after[u].created
      {
        if n.assignee.None? || u != n.assignee.value {
          assert after[u] == before[u];
        }
      }
    }
  }

  /** The five priority buckets are always present, and together count at most one per issue. */
  lemma {:induction false} FoldPriorities(nodes: seq<Node>)
    ensures Fold(nodes).priorities.Keys == InitialPriorities.Keys
    ensures forall b :: b in Fold(nodes).priorities ==> Fold(nodes).priorities[b] >= 0
    ensures MapSum(Fold(nodes).priorities) <= |nodes|
    decreases |nodes|
  {
    if nodes == [] {
      MapSumZero(InitialPriorities);
    } else {
      var init := nodes[..|nodes| - 1];
      FoldPriorities(init);
      var before := Fold(init).priorities;
      var bucket := PriorityBucket(nodes[|nodes| - 1].priority);
      PrioritiesStep(before, Fold(nodes).priorities, bucket, |init|);
    }
  }

  /** One node's priority keeps the five buckets, non-negative, and adds at most one. */
  lemma PrioritiesStep(before: map<Bucket, int>, after: map<Bucket, int>, bucket: Option<Bucket>, count: int)
    requires before.Keys == InitialPriorities.Keys && MapSum(before) <= count
    requires forall b :: b in before ==> before[b] >= 0
    requires after == if bucket.Some? then Bump(before, bucket.value, 1) else before
    ensures after.Keys == InitialPriorities.Keys && MapSum(after) <= count + 1
    ensures forall b :: b in after ==> after[b] >= 0
  {
    if bucket.Some? {
      EveryBucketListed(bucket.value);
      SumAfterBump(after, before, bucket.value, true);
    }
  }

  lemma EveryBucketListed(b: Bucket)
    ensures b in InitialPriorities
  {
    match b
    case Urgent =>
    case High =>
    case Medium =>
    case Low =>
    case NoPriority =>
  }

  /** The average is the mean of the kept cycle times (0 without any), so the negative guard never fires. */
  lemma AverageIsMean(nodes: seq<Node>)
    ensures ReportOf(nodes).averageCycleTime == Mean(Fold(nodes).cycleTimes)
    ensures ReportOf(nodes).averageCycleTime >= 0.0
  {
    FoldExclusive(nodes);
    MeanNonNegative(Fold(nodes).cycleTimes);
  }

  /** The body of the loop on one node: state, completion and cycle time, assignee, priority. */
  method ProcessNode(t: Tally, n: Node) returns (r: Tally)
    ensures r == Step(t, n)
  {
    r := CountState(t, n);
    r := CountCompletion(r, n);
    r := CountAssignee(r, n);
    r := CountPriority(r, n);
  }

  /** The state name's count, under "Unknown" when the node has none. */
  method CountState(t: Tally, n: Node) returns (r: Tally)
    ensures r == t.(states := Step(t, n).states)
  {
    var state := if n.stateName.Some? then n.stateName.value else "Unknown";
    r := t.(states := t.states[state := (if state in t.states then t.states[state] else 0) + 1]);
  }

  /** The priority bucket's count, when the priority falls in one. */
  method CountPriority(t: Tally, n: Node) returns (r: Tally)
    ensures r == t.(priorities := Step(t, n).priorities)
  {
    r := t;
    var bucket := PriorityBucket(n.priority);
    if bucket.Some? {
      r := r.(priorities := r.priorities[bucket.value := Get(r.priorities, bucket.value) + 1]);
    }
  }

  /** The completed / in-progress split, and the cycle time of a completed issue. */
  method CountCompletion(t: Tally, n: Node) returns (r: Tally)
    ensures r == t.(completed := Step(t, n).completed, inProgress := Step(t, n).inProgress,
                    cycleTimes := Step(t, n).cycleTimes)
  {
    r := t;
    if n.stateType == "completed" {
      r := r.(completed := r.completed + 1);
      if n.completedAt.Some? && n.createdAt.Some? {
        var cycle := n.completedAt.value - n.createdAt.value;
        if cycle > 0 {
          r := r.(cycleTimes := r.cycleTimes + [cycle]);
        }
      }
    } else if n.stateType == "started" || n.stateType == "inProgress" {
      r := r.(inProgress := r.inProgress + 1);
    }
  }

  /** The assignee's contribution, started at zero the first time the name is seen. */
  method CountAssignee(t: Tally, n: Node) returns (r: Tally)
    ensures r == t.(users := Credit(t.users, n))
  {
    r := t;
    if n.assignee.Some? {
      var u := n.assignee.value;
      var users := r.users;
      if u !in users {
        users := users[u := Contribution(0, 0)];
      }
      var c := users[u];
      c := c.(created := c.created + 1);
      if n.completedAt.Some? {
        c := c.(completed := c.completed + 1);
      }
      assert users[u := c] == t.users[u := c];
      r := r.(users := users[u := c]);
    }
  }

  /** get_linear_metrics' loop over the fetched nodes, and the average at the end. */
  method GetLinearMetrics(nodes: seq<Node>) returns (r: Report)
    ensures r == ReportOf(nodes)
    ensures r.issuesCreated == |nodes|
  {
    var t := EmptyTally;
    var i := 0;
    while i < |nodes|
      invariant 0 <= i <= |nodes|
      invariant t == Fold(nodes[..i])
    {
      assert nodes[..i + 1][..i] == nodes[..i];
      t := ProcessNode(t, nodes[i]);
      i := i + 1;
    }
    assert nodes[..i] == nodes;
    var average := 0.0;
    if t.cycleTimes != [] {
      average := Sum(t.cycleTimes) as real / |t.cycleTimes| as real;
      if average < 0.0 {
        average := 0.0;
      }
    }
    r := Report(|nodes|, t.completed, t.inProgress, t.cycleTimes, t.users, t.priorities, t.states, average);
  }
}

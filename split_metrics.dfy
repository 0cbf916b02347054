// get_split_metrics of src/wellcode_cli/split_metrics.py: the feature-flag
// ("split") summary built from the records the Split SDK returns. The SDK
// calls become the outcome `Fetch`; the millisecond bounds of the reporting
// window and of "the last seven days" are parameters.

module SplitMetrics {
  import opened Common

  /** A split as the SDK's manager lists it; `trafficType` None when the attribute is None. */
  datatype Split = Split(name: string, killed: bool, changeNumber: int, trafficType: Option<string>,
                         treatments: seq<string>, defaultTreatment: string, configs: map<string, string>)

  datatype Status = Active | Killed

  /** The entries of the three lists; a time is the change number in milliseconds (the source formats it as local time). */
  datatype NoTraffic = NoTraffic(name: string, status: Status, lastModified: int)
  datatype Changed = Changed(name: string, changeTime: int, status: Status, treatments: seq<string>)
  datatype TopSplit = TopSplit(name: string, trafficType: Option<string>, status: Status, treatments: seq<string>,
                               defaultTreatment: string, hasRules: bool, configs: map<string, string>, lastModified: int)

  datatype Report = Report(totalSplits: int, activeSplits: int, splitsByEnvironment: map<string, int>,
                           treatmentsServed: int, topSplits: seq<TopSplit>, changedSplits: seq<Changed>,
                           noTrafficSplits: seq<NoTraffic>, recentlyModifiedCount: int, errors: seq<string>)

  /**
   * What the SDK does: the factory cannot be created, the client is not
   * ready within five seconds, listing fails, or the splits are listed.
   */
  datatype Fetch = InitFailure(message: string) | Timeout | FetchFailure(message: string) | Ready(splits: seq<Split>)

  const MissingKeyError := "SPLIT_API_KEY not set in environment"
  const TimeoutError := "Timeout while waiting for Split.io client to be ready"
  const FetchErrorPrefix := "Error fetching Split.io metrics: "
  const InitErrorPrefix := "Error initializing Split client: "
  /** How many splits top_splits lists. */
  const TopCount := 5

  /** The all-zero report with the given errors. */
  function Zero(errors: seq<string>): Report
  {
    Report(0, 0, map[], 0, [], [], [], 0, errors)
  }

  function StatusOf(s: Split): Status
  {
    if s.killed then Killed else Active
  }

  /** `not getattr(split, "traffic_type", "") or split.killed`. */
  predicate LacksTraffic(s: Split)
  {
    s.trafficType.None? || s.trafficType.value == "" || s.killed
  }

  predicate InWindow(s: Split, startTs: int, endTs: int)
  {
    startTs <= s.changeNumber <= endTs
  }

  function NoTrafficEntry(s: Split): NoTraffic
  {
    NoTraffic(s.name, StatusOf(s), s.changeNumber)
  }

  function ChangedEntry(s: Split): Changed
  {
    Changed(s.name, s.changeNumber, StatusOf(s), s.treatments)
  }

  function TopEntry(s: Split): TopSplit
  {
    TopSplit(s.name, s.trafficType, StatusOf(s), s.treatments, s.defaultTreatment, |s.treatments| > 1, s.configs, s.changeNumber)
  }

  // ---------------------------------------------------------------- what the loop computes

  function ActiveCount(splits: seq<Split>): nat
  {
    if splits == [] then 0
    else ActiveCount(splits[..|splits| - 1]) + (if splits[|splits| - 1].killed then 0 else 1)
  }

  function RecentCount(splits: seq<Split>, weekAgoTs: int): nat
  {
    if splits == [] then 0
    else RecentCount(splits[..|splits| - 1], weekAgoTs) + (if splits[|splits| - 1].changeNumber >= weekAgoTs then 1 else 0)
  }

  function NoTrafficOf(splits: seq<Split>): seq<NoTraffic>
  {
    if splits == [] then []
    else
      var s := splits[|splits| - 1];
      NoTrafficOf(splits[..|splits| - 1]) + (if LacksTraffic(s) then [NoTrafficEntry(s)] else [])
  }

  function ChangedOf(splits: seq<Split>, startTs: int, endTs: int): seq<Changed>
  {
    if splits == [] then []
    else
      var s := splits[|splits| - 1];
      ChangedOf(splits[..|splits| - 1], startTs, endTs) + (if InWindow(s, startTs, endTs) then [ChangedEntry(s)] else [])
  }

  function InWindowCount(splits: seq<Split>, startTs: int, endTs: int): nat
  {
    if splits == [] then 0
    else InWindowCount(splits[..|splits| - 1], startTs, endTs) + (if InWindow(splits[|splits| - 1], startTs, endTs) then 1 else 0)
  }

  /** The top_splits comprehension: one entry for each of the first five splits. */
  function TopOf(splits: seq<Split>): (r: seq<TopSplit>)
    ensures |r| == if |splits| < TopCount then |splits| else TopCount
    ensures forall i :: 0 <= i < |r| ==> r[i] == TopEntry(splits[i])
  {
    var n := if |splits| < TopCount then |splits| else TopCount;
    seq(n, i requires 0 <= i < n => TopEntry(splits[i]))
  }

  /** The report get_split_metrics returns. */
  function SplitReport(apiKey: string, fetch: Fetch, startTs: int, endTs: int, weekAgoTs: int): Report
  {
    if apiKey == "" then Zero([MissingKeyError])
    else match fetch
      case InitFailure(e) => Zero([InitErrorPrefix + e])
      case Timeout => Zero([TimeoutError])
      case FetchFailure(e) => Zero([FetchErrorPrefix + e])
      case Ready(splits) =>
        Report(|splits|, ActiveCount(splits), map["production" := |splits|], 0, TopOf(splits),
               ChangedOf(splits, startTs, endTs), NoTrafficOf(splits), RecentCount(splits, weekAgoTs), [])
  }

  // ---------------------------------------------------------------- the loop

  /**
   * get_split_metrics: the loop over the listed splits counts the active and
   * the recently modified ones and collects the splits without traffic and
   * those changed inside the window; the first five splits and the
   * environment count follow.
   */
  method GetSplitMetrics(apiKey: string, fetch: Fetch, startTs: int, endTs: int, weekAgoTs: int) returns (m: Report)
    ensures m == SplitReport(apiKey, fetch, startTs, endTs, weekAgoTs)
  {
    if apiKey == "" {
      return Zero([MissingKeyError]);
    }
    if fetch.InitFailure? {
      return Zero([InitErrorPrefix + fetch.message]);
    }
    m := Zero([]);
    if fetch.Timeout? {
      m := m.(errors := m.errors + [TimeoutError]);
      return;
    }
    if fetch.FetchFailure? {
      m := m.(errors := m.errors + [FetchErrorPrefix + fetch.message]);
      return;
    }
    var splits := fetch.splits;
    var active, recent := 0, 0;
    var noTraffic: seq<NoTraffic>, changed: seq<Changed> := [], [];
    var i := 0;
    while i < |splits|
      invariant 0 <= i <= |splits|
      invariant active == ActiveCount(splits[..i]) && recent == RecentCount(splits[..i], weekAgoTs)
      invariant noTraffic == NoTrafficOf(splits[..i]) && changed == ChangedOf(splits[..i], startTs, endTs)
    {
      var s := splits[i];
      assert splits[..i + 1][..i] == splits[..i];
      if !s.killed {
        active := active + 1;
      }
      if s.changeNumber >= weekAgoTs {
        recent := recent + 1;
      }
      if s.trafficType.None? || s.trafficType.value == "" || s.killed {
        noTraffic := noTraffic + [NoTrafficEntry(s)];
      }
      if startTs <= s.changeNumber <= endTs {
        changed := changed + [ChangedEntry(s)];
      }
      i := i + 1;
    }
    assert splits[..i] == splits;
    m := m.(totalSplits := |splits|, activeSplits := active, recentlyModifiedCount := recent,
            noTrafficSplits := noTraffic, changedSplits := changed, topSplits := TopOf(splits));
    m := m.(splitsByEnvironment := map["production" := m.totalSplits]);
  }

  // ---------------------------------------------------------------- what the report states

  /** Without an API key nothing is fetched: the all-zero report with exactly the one error. */
  lemma MissingKeyReport(fetch: Fetch, startTs: int, endTs: int, weekAgoTs: int)
    ensures var r := SplitReport("", fetch, startTs, endTs, weekAgoTs);
      r == Zero([MissingKeyError]) && |r.errors| == 1
  {
  }

  /** Every SDK failure gives the all-zero report with exactly one error; a listing gives none. */
  lemma FailureReports(apiKey: string, fetch: Fetch, startTs: int, endTs: int, weekAgoTs: int)
    requires apiKey != ""
    ensures var r := SplitReport(apiKey, fetch, startTs, endTs, weekAgoTs);
      (!fetch.Ready? <==> |r.errors| == 1) && (fetch.Ready? <==> r.errors == [])
      && (!fetch.Ready? ==> r == Zero(r.errors))
  {
  }

  /** The active splits are exactly the ones not killed, so never more than all of them. */
  lemma {:induction false} ActiveCounted(splits: seq<Split>)
    ensures ActiveCount(splits) <= |splits|
    ensures ActiveCount(splits) == |splits| <==> forall i :: 0 <= i < |splits| ==> !splits[i].killed
    ensures ActiveCount(splits) == 0 <==> forall i :: 0 <= i < |splits| ==> splits[i].killed
    decreases |splits|
  {
    if splits != [] {
      var init := splits[..|splits| - 1];
      ActiveCounted(init);
      assert forall i :: 0 <= i < |init| ==> init[i] == splits[i];
    }
  }

  /** A split changed inside the window is listed exactly when its change number lies in the window. */
  lemma {:induction false} ChangedListed(splits: seq<Split>, startTs: int, endTs: int, c: Changed)
    ensures c in ChangedOf(splits, startTs, endTs)
      <==> exists i :: 0 <= i < |splits| && InWindow(splits[i], startTs, endTs) && c == ChangedEntry(splits[i])
    decreases |splits|
  {
    if splits != [] {
      var init := splits[..|splits| - 1];
      ChangedListed(init, startTs, endTs, c);
      if c in ChangedOf(init, startTs, endTs) {
        var i :| 0 <= i < |init| && InWindow(init[i], startTs, endTs) && c == ChangedEntry(init[i]);
        assert init[i] == splits[i];
      }
      if exists i :: 0 <= i < |splits| && InWindow(splits[i], startTs, endTs) && c == ChangedEntry(splits[i]) {
        var i :| 0 <= i < |splits| && InWindow(splits[i], startTs, endTs) && c == ChangedEntry(splits[i]);
        if i < |init| {
          assert init[i] == splits[i];
        }
      }
    }
  }

  /** One changed entry for each split inside the window, so never more than the splits. */
  lemma {:induction false} ChangedCounted(splits: seq<Split>, startTs: int, endTs: int)
    ensures |ChangedOf(splits, startTs, endTs)| == InWindowCount(splits, startTs, endTs) <= |splits|
    decreases |splits|
  {
    if splits != [] {
      ChangedCounted(splits[..|splits| - 1], startTs, endTs);
    }
  }

  /** The changed list keeps the input order: listing two runs of splits lists the first run's entries first. */
  lemma {:induction false} ChangedInOrder(a: seq<Split>, b: seq<Split>, startTs: int, endTs: int)
    ensures ChangedOf(a + b, startTs, endTs) == ChangedOf(a, startTs, endTs) + ChangedOf(b, startTs, endTs)
    decreases |b|
  {
    if b == [] {
      assert a + b == a;
    } else {
      var b' := b[..|b| - 1];
      assert (a + b)[..|a + b| - 1] == a + b';
      ChangedInOrder(a, b', startTs, endTs);
    }
  }

  /** Every killed split and every split without a traffic type is listed as without traffic, and nothing else is. */
  lemma {:induction false} NoTrafficListed(splits: seq<Split>, e: NoTraffic)
    ensures e in NoTrafficOf(splits) <==> exists i :: 0 <= i < |splits| && LacksTraffic(splits[i]) && e == NoTrafficEntry(splits[i])
    decreases |splits|
  {
    if splits != [] {
      var init := splits[..|splits| - 1];
      NoTrafficListed(init, e);
      if e in NoTrafficOf(init) {
        var i :| 0 <= i < |init| && LacksTraffic(init[i]) && e == NoTrafficEntry(init[i]);
        assert init[i] == splits[i];
      }
      if exists i :: 0 <= i < |splits| && LacksTraffic(splits[i]) && e == NoTrafficEntry(splits[i]) {
        var i :| 0 <= i < |splits| && LacksTraffic(splits[i]) && e == NoTrafficEntry(splits[i]);
        if i < |init| {
          assert init[i] == splits[i];
        }
      }
    }
  }

  /** A killed split is always listed as without traffic, with status killed. */
  lemma KilledHasNoTraffic(splits: seq<Split>, i: int)
    requires 0 <= i < |splits| && splits[i].killed
    ensures NoTraffic(splits[i].name, Killed, splits[i].changeNumber) in NoTrafficOf(splits)
  {
    NoTrafficListed(splits, NoTrafficEntry(splits[i]));
  }

  /** The recently modified count never exceeds the splits, and a week bound below every change number counts them all. */
  lemma {:induction false} RecentCounted(splits: seq<Split>, weekAgoTs: int)
    ensures RecentCount(splits, weekAgoTs) <= |splits|
    ensures (forall i :: 0 <= i < |splits| ==> splits[i].changeNumber >= weekAgoTs) ==> RecentCount(splits, weekAgoTs) == |splits|
    ensures (forall i :: 0 <= i < |splits| ==> splits[i].changeNumber < weekAgoTs) ==> RecentCount(splits, weekAgoTs) == 0
    decreases |splits|
  {
    if splits != [] {
      var init := splits[..|splits| - 1];
      RecentCounted(init, weekAgoTs);
      assert forall i :: 0 <= i < |init| ==> init[i] == splits[i];
    }
  }

  /**
   * A listing reports every split in the total and the one "production"
   * environment, at most five top splits taken from the front, active never
   * above total, and no treatments served.
   */
  lemma ReadyReport(apiKey: string, splits: seq<Split>, startTs: int, endTs: int, weekAgoTs: int)
    requires apiKey != ""
    ensures var r := SplitReport(apiKey, Ready(splits), startTs, endTs, weekAgoTs);
      r.totalSplits == |splits| && r.splitsByEnvironment == map["production" := r.totalSplits]
      && 0 <= r.activeSplits <= r.totalSplits && r.treatmentsServed == 0
      && |r.topSplits| <= TopCount && |r.topSplits| <= r.totalSplits
      && (|splits| >= TopCount ==> |r.topSplits| == TopCount)
      && (forall i :: 0 <= i < |r.topSplits| ==> r.topSplits[i].name == splits[i].name)
      && r.recentlyModifiedCount <= r.totalSplits && |r.changedSplits| <= r.totalSplits
  {
    ActiveCounted(splits);
    RecentCounted(splits, weekAgoTs);
    ChangedCounted(splits, startTs, endTs);
  }
}

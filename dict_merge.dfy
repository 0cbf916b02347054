// merge_metrics and the summary figures of get_github_metrics in
// wellcode_cli/github_metrics.py: the repositories' records folded into one
// record, then the deployment frequency and the averages computed from it.

module DictMerge {
  import opened Common
  import Clock
  import opened DictGithub

  function Plus(a: Contribution, b: Contribution): Contribution
  {
    Contribution(a.created + b.created, a.merged + b.merged)
  }

  /** `combined[user]['created'] += stats['created']` (and 'merged') for every user of `m`, on a defaultdict. */
  function AddAll(c: map<string, Contribution>, m: map<string, Contribution>): map<string, Contribution>
  {
    map u | u in c.Keys + m.Keys :: Plus(At(c, u), At(m, u))
  }

  /** A defaultdict(set) entry: a missing pull request has no reviewers. */
  function ReviewersAt<T>(m: map<int, set<T>>, k: int): set<T>
  {
    if k in m then m[k] else {}
  }

  /** `combined[pr_num].update(reviewers)` for every pull request of `m`. */
  function UnionAll<T>(c: map<int, set<T>>, m: map<int, set<T>>): map<int, set<T>>
  {
    map k | k in c.Keys + m.Keys :: ReviewersAt(c, k) + ReviewersAt(m, k)
  }

  /**
   * One iteration of merge_metrics: counters added, lists extended, the
   * per-PR count dictionaries updated with `dict.update`, contributions added
   * per user and reviewer sets united per pull request. `commit_count_per_pr`
   * is the one list the source does not extend.
   */
  function MergeInto(c: RepoRecord, x: RepoRecord): RepoRecord
  {
    RepoRecord(
      c.prsCreated + x.prsCreated,
      c.prsMerged + x.prsMerged,
      c.prsMergedToMain + x.prsMergedToMain,
      c.commentsPerPr + x.commentsPerPr,
      c.timeToMerge + x.timeToMerge,
      c.leadTimes + x.leadTimes,
      AddAll(c.userContributions, x.userContributions),
      ReviewPart(
        c.review.timeToFirstReview + x.review.timeToFirstReview,
        c.review.reviewCycles + x.review.reviewCycles,
        UnionAll(c.review.reviewersPerPr, x.review.reviewersPerPr),
        c.review.blockingReviews + x.review.blockingReviews),
      CodePart(
        c.code.changesPerPr + x.code.changesPerPr,
        c.code.filesChangedPerPr + x.code.filesChangedPerPr,
        c.code.commitCountPerPr,
        c.code.revertCount + x.code.revertCount,
        c.code.hotfixCount + x.code.hotfixCount),
      CollabPart(
        c.collab.crossTeamReviews + x.collab.crossTeamReviews,
        c.collab.reviewCommentsPerPr + x.collab.reviewCommentsPerPr,
        c.collab.selfMerges + x.collab.selfMerges),
      MergeTimes(
        c.timing.businessHours + x.timing.businessHours,
        c.timing.afterHours + x.timing.afterHours,
        c.timing.weekends + x.timing.weekends),
      BottleneckPart(
        c.bottleneck.stalePrs + x.bottleneck.stalePrs,
        c.bottleneck.longRunningPrs + x.bottleneck.longRunningPrs,
        c.bottleneck.reviewWaitTime + x.bottleneck.reviewWaitTime))
  }

  /** merge_metrics over records, in list order, from the all-zero record. */
  function MergeAll(xs: seq<RepoRecord>): RepoRecord
  {
    if xs == [] then Empty() else MergeInto(MergeAll(xs[..|xs| - 1]), xs[|xs| - 1])
  }

  /** Every repository produced a record (get_repo_metrics returns None after a failure). */
  predicate AllPresent(list: seq<Option<RepoRecord>>)
  {
    forall i :: 0 <= i < |list| ==> list[i].Some?
  }

  function Present(list: seq<Option<RepoRecord>>): (xs: seq<RepoRecord>)
    requires AllPresent(list)
    ensures |xs| == |list| && forall i :: 0 <= i < |list| ==> list[i] == Some(xs[i])
  {
    seq(|list|, i requires 0 <= i < |list| && AllPresent(list) => list[i].value)
  }

  // ---------------------------------------------------------------- the loops

  /** Some element of a non-empty set, the next one a loop over the set visits. */
  method NextKey<K>(rest: set<K>) returns (k: K)
    requires rest != {}
    ensures k in rest
  {
    k :| k in rest;
  }

  lemma AddAllEmpty(c: map<string, Contribution>)
    ensures AddAll(c, map[]) == c
  {
    assert forall u :: u in c ==> AddAll(c, map[])[u] == c[u];
  }

  lemma AddAllStep(c: map<string, Contribution>, done: map<string, Contribution>, u: string, v: Contribution)
    requires u !in done
    ensures AddAll(c, done[u := v]) == AddAll(c, done)[u := Plus(At(AddAll(c, done), u), v)]
  {
    assert At(AddAll(c, done), u) == At(c, u);
  }

  /** The user_contributions loop of merge_metrics, one user at a time. */
  method AddContributions(c: map<string, Contribution>, m: map<string, Contribution>) returns (r: map<string, Contribution>)
    ensures r == AddAll(c, m)
  {
    r := c;
    ghost var done: map<string, Contribution> := map[];
    var rest := m.Keys;
    AddAllEmpty(c);
    while rest != {}
      invariant rest <= m.Keys
      invariant done.Keys == m.Keys - rest
      invariant forall u :: u in done ==> done[u] == m[u]
      invariant r == AddAll(c, done)
      decreases |rest|
    {
      var u := NextKey(rest);
      AddAllStep(c, done, u, m[u]);
      r := r[u := Plus(At(r, u), m[u])];
      done := done[u := m[u]];
      rest := rest - {u};
    }
    assert done == m;
  }

  lemma UnionAllEmpty<T>(c: map<int, set<T>>)
    ensures UnionAll(c, map[]) == c
  {
    assert forall k :: k in c ==> UnionAll(c, map[])[k] == c[k];
  }

  lemma UnionAllStep<T>(c: map<int, set<T>>, done: map<int, set<T>>, k: int, v: set<T>)
    requires k !in done
    ensures UnionAll(c, done[k := v]) == UnionAll(c, done)[k := ReviewersAt(UnionAll(c, done), k) + v]
  {
    var a := UnionAll(c, done[k := v]);
    var b := UnionAll(c, done)[k := ReviewersAt(UnionAll(c, done), k) + v];
    assert a.Keys == b.Keys;
    forall j | j in a
      ensures a[j] == b[j]
    {
      if j != k {
        assert ReviewersAt(done[k := v], j) == ReviewersAt(done, j);
      }
    }
  }

  /** The entries of `m` whose keys are not in `rest`: the ones a loop over `m` has visited. */
  function Visited<T>(m: map<int, set<T>>, rest: set<int>): map<int, set<T>>
  {
    map k | k in m.Keys - rest :: m[k]
  }

  lemma VisitedStep<T>(c: map<int, set<T>>, m: map<int, set<T>>, rest: set<int>, k: int)
    requires k in rest && k in m
    ensures var u := UnionAll(c, Visited(m, rest));
      UnionAll(c, Visited(m, rest - {k})) == u[k := ReviewersAt(u, k) + m[k]]
  {
    assert Visited(m, rest - {k}) == Visited(m, rest)[k := m[k]];
    UnionAllStep(c, Visited(m, rest), k, m[k]);
  }

  lemma VisitedEnds<T>(m: map<int, set<T>>)
    ensures Visited(m, m.Keys) == map[] && Visited(m, {}) == m
  {
  }

  /** The reviewers_per_pr loop of merge_metrics, one pull request at a time. */
  method UnionReviewers<T>(c: map<int, set<T>>, m: map<int, set<T>>) returns (r: map<int, set<T>>)
    ensures r == UnionAll(c, m)
  {
    r := c;
    var rest := m.Keys;
    VisitedEnds(m);
    UnionAllEmpty(c);
    while rest != {}
      invariant rest <= m.Keys
      invariant r == UnionAll(c, Visited(m, rest))
      decreases |rest|
    {
      var k := NextKey(rest);
      VisitedStep(c, m, rest, k);
      r := r[k := ReviewersAt(r, k) + m[k]];
      rest := rest - {k};
    }
  }

  /** One iteration of merge_metrics' loop over the repositories' records. */
  method MergeOne(c: RepoRecord, x: RepoRecord) returns (r: RepoRecord)
    ensures r == MergeInto(c, x)
  {
    var contributions := AddContributions(c.userContributions, x.userContributions);
    var reviewers := UnionReviewers(c.review.reviewersPerPr, x.review.reviewersPerPr);
    r := MergeInto(c, x).(userContributions := contributions,
                          review := MergeInto(c, x).review.(reviewersPerPr := reviewers));
  }

  /**
   * merge_metrics over what get_repo_metrics returned: the fold of the records
   * when every repository produced one; indexing a None entry raises a
   * TypeError, modelled as None.
   */
  method MergeMetrics(list: seq<Option<RepoRecord>>) returns (r: Option<RepoRecord>)
    ensures r.None? <==> !AllPresent(list)
    ensures r.Some? ==> r.value == MergeAll(Present(list))
    ensures list == [] ==> r == Some(Empty())
  {
    var c := Empty();
    var i := 0;
    while i < |list|
      invariant 0 <= i <= |list|
      invariant AllPresent(list[..i]) && c == MergeAll(Present(list[..i]))
    {
      if list[i].None? {
        return None;
      }
      assert Present(list[..i + 1])[..i] == Present(list[..i]);
      c := MergeOne(c, list[i].value);
      i := i + 1;
    }
    assert list[..i] == list;
    r := Some(c);
  }

  // ---------------------------------------------------------------- what merging computes

  /** The record's counters, one name each. */
  datatype Counter =
    | PrsCreated | PrsMerged | PrsMergedToMain | BlockingReviews | RevertCount | HotfixCount
    | CrossTeamReviews | SelfMerges | BusinessHours | AfterHours | Weekends | StalePrs | LongRunningPrs

  function CounterOf(m: RepoRecord, k: Counter): int
  {
    match k
    case PrsCreated => m.prsCreated
    case PrsMerged => m.prsMerged
    case PrsMergedToMain => m.prsMergedToMain
    case BlockingReviews => m.review.blockingReviews
    case RevertCount => m.code.revertCount
    case HotfixCount => m.code.hotfixCount
    case CrossTeamReviews => m.collab.crossTeamReviews
    case SelfMerges => m.collab.selfMerges
    case BusinessHours => m.timing.businessHours
    case AfterHours => m.timing.afterHours
    case Weekends => m.timing.weekends
    case StalePrs => m.bottleneck.stalePrs
    case LongRunningPrs => m.bottleneck.longRunningPrs
  }

  /** The record's lists that merge_metrics extends. */
  datatype ListField =
    | TimeToMerge | LeadTimes | TimeToFirstReview | ReviewCycles | ChangesPerPr | FilesChangedPerPr | ReviewWaitTime

  function ListOf(m: RepoRecord, l: ListField): seq<int>
  {
    match l
    case TimeToMerge => m.timeToMerge
    case LeadTimes => m.leadTimes
    case TimeToFirstReview => m.review.timeToFirstReview
    case ReviewCycles => m.review.reviewCycles
    case ChangesPerPr => m.code.changesPerPr
    case FilesChangedPerPr => m.code.filesChangedPerPr
    case ReviewWaitTime => m.bottleneck.reviewWaitTime
  }

  /** The record's per-PR count dictionaries. */
  datatype DictField = CommentsPerPr | ReviewCommentsPerPr

  function DictOf(m: RepoRecord, f: DictField): map<int, int>
  {
    match f
    case CommentsPerPr => m.commentsPerPr
    case ReviewCommentsPerPr => m.collab.reviewCommentsPerPr
  }

  /** Concatenation of a list of lists, in order. */
  function Flatten(ss: seq<seq<int>>): seq<int>
  {
    if ss == [] then [] else Flatten(ss[..|ss| - 1]) + ss[|ss| - 1]
  }

  /** The values of one counter, record by record. */
  function CounterColumn(xs: seq<RepoRecord>, k: Counter): (s: seq<int>)
    ensures |s| == |xs| && forall i :: 0 <= i < |xs| ==> s[i] == CounterOf(xs[i], k)
  {
    if xs == [] then [] else CounterColumn(xs[..|xs| - 1], k) + [CounterOf(xs[|xs| - 1], k)]
  }

  /** The values of one list field, record by record. */
  function ListColumn(xs: seq<RepoRecord>, l: ListField): (s: seq<seq<int>>)
    ensures |s| == |xs| && forall i :: 0 <= i < |xs| ==> s[i] == ListOf(xs[i], l)
  {
    if xs == [] then [] else ListColumn(xs[..|xs| - 1], l) + [ListOf(xs[|xs| - 1], l)]
  }

  /** One user's created and merged counts, summed over the records. */
  function CreatedTotal(xs: seq<RepoRecord>, u: string): int
  {
    if xs == [] then 0 else CreatedTotal(xs[..|xs| - 1], u) + At(xs[|xs| - 1].userContributions, u).created
  }

  function MergedTotal(xs: seq<RepoRecord>, u: string): int
  {
    if xs == [] then 0 else MergedTotal(xs[..|xs| - 1], u) + At(xs[|xs| - 1].userContributions, u).merged
  }

  /** One merging step seen from each kind of field. */
  lemma FieldsStep(c: RepoRecord, x: RepoRecord, k: Counter, l: ListField, f: DictField)
    ensures var r := MergeInto(c, x);
      CounterOf(r, k) == CounterOf(c, k) + CounterOf(x, k)
      && ListOf(r, l) == ListOf(c, l) + ListOf(x, l)
      && DictOf(r, f) == DictOf(c, f) + DictOf(x, f)
      && r.review.reviewersPerPr == UnionAll(c.review.reviewersPerPr, x.review.reviewersPerPr)
      && r.userContributions == AddAll(c.userContributions, x.userContributions)
  {
  }

  /** The merged record of a non-empty list, as its last merging step. */
  lemma MergeAllStep(xs: seq<RepoRecord>, k: Counter, l: ListField, f: DictField)
    requires xs != []
    ensures var r := MergeAll(xs); var c := MergeAll(xs[..|xs| - 1]); var x := xs[|xs| - 1];
      CounterOf(r, k) == CounterOf(c, k) + CounterOf(x, k)
      && ListOf(r, l) == ListOf(c, l) + ListOf(x, l)
      && DictOf(r, f) == DictOf(c, f) + DictOf(x, f)
      && r.review.reviewersPerPr == UnionAll(c.review.reviewersPerPr, x.review.reviewersPerPr)
      && r.userContributions == AddAll(c.userContributions, x.userContributions)
  {
    FieldsStep(MergeAll(xs[..|xs| - 1]), xs[|xs| - 1], k, l, f);
  }

  /** Every counter of the merged record is the sum of that counter over the records. */
  lemma {:induction false} MergeSumsCounters(xs: seq<RepoRecord>, k: Counter)
    ensures CounterOf(MergeAll(xs), k) == Sum(CounterColumn(xs, k))
    decreases |xs|
  {
    if xs != [] {
      var init := xs[..|xs| - 1];
      MergeSumsCounters(init, k);
      MergeAllStep(xs, k, TimeToMerge, CommentsPerPr);
      SumAppend(CounterColumn(init, k), CounterOf(xs[|xs| - 1], k));
    }
  }

  /** Every extended list of the merged record is the records' lists concatenated in input order. */
  lemma {:induction false} MergeConcatenatesLists(xs: seq<RepoRecord>, l: ListField)
    ensures ListOf(MergeAll(xs), l) == Flatten(ListColumn(xs, l))
    decreases |xs|
  {
    if xs != [] {
      var init := xs[..|xs| - 1];
      MergeConcatenatesLists(init, l);
      MergeAllStep(xs, PrsCreated, l, CommentsPerPr);
      assert ListColumn(xs, l)[..|xs| - 1] == ListColumn(init, l);
    }
  }

  /** `commit_count_per_pr` is never extended, so the merged record's list is always empty. */
  lemma {:induction false} MergeDropsCommitCounts(xs: seq<RepoRecord>)
    ensures MergeAll(xs).code.commitCountPerPr == []
    decreases |xs|
  {
    if xs != [] {
      MergeDropsCommitCounts(xs[..|xs| - 1]);
    }
  }

  /** A per-PR count dictionary holds the pull requests numbered in any record. */
  lemma {:induction false} MergeDictKeys(xs: seq<RepoRecord>, f: DictField, k: int)
    ensures k in DictOf(MergeAll(xs), f) <==> exists i :: 0 <= i < |xs| && k in DictOf(xs[i], f)
    decreases |xs|
  {
    if xs != [] {
      var init := xs[..|xs| - 1];
      var last := xs[|xs| - 1];
      MergeDictKeys(init, f, k);
      MergeAllStep(xs, PrsCreated, TimeToMerge, f);
      if k in DictOf(MergeAll(xs), f) {
        if k !in DictOf(last, f) {
          var i :| 0 <= i < |init| && k in DictOf(init[i], f);
          assert init[i] == xs[i];
        }
      } else {
        forall i | 0 <= i < |xs|
          ensures k !in DictOf(xs[i], f)
        {
          if i < |init| {
            assert init[i] == xs[i];
          }
        }
      }
    }
  }

  /** For each pull request, the merged dictionary keeps the value of the last record that has it. */
  lemma {:induction false} MergeLaterWins(xs: seq<RepoRecord>, f: DictField, k: int, i: nat)
    requires i < |xs| && k in DictOf(xs[i], f)
    requires forall j :: i < j < |xs| ==> k !in DictOf(xs[j], f)
    ensures k in DictOf(MergeAll(xs), f) && DictOf(MergeAll(xs), f)[k] == DictOf(xs[i], f)[k]
    decreases |xs|
  {
    var init := xs[..|xs| - 1];
    MergeAllStep(xs, PrsCreated, TimeToMerge, f);
    if i < |xs| - 1 {
      assert init[i] == xs[i];
      assert forall j :: i < j < |init| ==> init[j] == xs[j];
      MergeLaterWins(init, f, k, i);
    }
  }

  lemma UnionAt<T>(c: map<int, set<T>>, m: map<int, set<T>>, k: int)
    ensures (k in UnionAll(c, m) <==> k in c || k in m)
    ensures ReviewersAt(UnionAll(c, m), k) == ReviewersAt(c, k) + ReviewersAt(m, k)
  {
  }

  /** The records' reviewer maps, in list order. */
  function ReviewerMaps(xs: seq<RepoRecord>): (ms: seq<map<int, set<string>>>)
    ensures |ms| == |xs| && forall i :: 0 <= i < |xs| ==> ms[i] == xs[i].review.reviewersPerPr
  {
    seq(|xs|, i requires 0 <= i < |xs| => xs[i].review.reviewersPerPr)
  }

  /** Reviewer maps united from the empty map, in list order. */
  function UnionFold<T>(ms: seq<map<int, set<T>>>): map<int, set<T>>
  {
    if ms == [] then map[] else UnionAll(UnionFold(ms[..|ms| - 1]), ms[|ms| - 1])
  }

  lemma {:induction false} MergeReviewersIsFold(xs: seq<RepoRecord>)
    ensures MergeAll(xs).review.reviewersPerPr == UnionFold(ReviewerMaps(xs))
    decreases |xs|
  {
    if xs != [] {
      MergeReviewersIsFold(xs[..|xs| - 1]);
      MergeAllStep(xs, PrsCreated, TimeToMerge, CommentsPerPr);
      ReviewerMapsPrefix(xs);
    }
  }

  lemma ReviewerMapsPrefix(xs: seq<RepoRecord>)
    requires xs != []
    ensures ReviewerMaps(xs)[..|xs| - 1] == ReviewerMaps(xs[..|xs| - 1])
  {
  }

  lemma {:induction false} UnionFoldKeys<T>(ms: seq<map<int, set<T>>>, k: int)
    ensures k in UnionFold(ms) <==> exists i :: 0 <= i < |ms| && k in ms[i]
    decreases |ms|
  {
    if ms != [] {
      var init := ms[..|ms| - 1];
      UnionFoldKeys(init, k);
      UnionAt(UnionFold(init), ms[|ms| - 1], k);
      if k in UnionFold(init) {
        var i :| 0 <= i < |init| && k in init[i];
        assert k in ms[i];
      }
      if exists i :: 0 <= i < |ms| && k in ms[i] {
        var i :| 0 <= i < |ms| && k in ms[i];
        if i < |init| {
          assert k in init[i];
        }
      }
    }
  }

  lemma {:induction false} UnionFoldMembers<T>(ms: seq<map<int, set<T>>>, k: int, x: T)
    ensures x in ReviewersAt(UnionFold(ms), k) <==> exists i :: 0 <= i < |ms| && x in ReviewersAt(ms[i], k)
    decreases |ms|
  {
    if ms != [] {
      var init := ms[..|ms| - 1];
      UnionFoldMembers(init, k, x);
      UnionAt(UnionFold(init), ms[|ms| - 1], k);
      if x in ReviewersAt(UnionFold(init), k) {
        var i :| 0 <= i < |init| && x in ReviewersAt(init[i], k);
        assert x in ReviewersAt(ms[i], k);
      }
      if exists i :: 0 <= i < |ms| && x in ReviewersAt(ms[i], k) {
        var i :| 0 <= i < |ms| && x in ReviewersAt(ms[i], k);
        if i < |init| {
          assert x in ReviewersAt(init[i], k);
        }
      }
    }
  }

  /**
   * A pull request is numbered in the merged reviewer map exactly when some
   * record numbers it, and its merged reviewer set is the union of its
   * reviewer sets in every record.
   */
  lemma MergeUnionsReviewers(xs: seq<RepoRecord>, k: int, x: string)
    ensures k in MergeAll(xs).review.reviewersPerPr <==> exists i :: 0 <= i < |xs| && k in xs[i].review.reviewersPerPr
    ensures x in ReviewersAt(MergeAll(xs).review.reviewersPerPr, k)
      <==> exists i :: 0 <= i < |xs| && x in ReviewersAt(xs[i].review.reviewersPerPr, k)
  {
    MergeReviewersIsFold(xs);
    FoldedReviewers(xs, MergeAll(xs).review.reviewersPerPr, k, x);
  }

  lemma FoldedReviewers(xs: seq<RepoRecord>, u: map<int, set<string>>, k: int, x: string)
    requires u == UnionFold(ReviewerMaps(xs))
    ensures k in u <==> exists i :: 0 <= i < |xs| && k in xs[i].review.reviewersPerPr
    ensures x in ReviewersAt(u, k) <==> exists i :: 0 <= i < |xs| && x in ReviewersAt(xs[i].review.reviewersPerPr, k)
  {
    UnionFoldKeys(ReviewerMaps(xs), k);
    UnionFoldMembers(ReviewerMaps(xs), k, x);
  }

  lemma AddAt(c: map<string, Contribution>, m: map<string, Contribution>, u: string)
    ensures (u in AddAll(c, m) <==> u in c || u in m)
    ensures At(AddAll(c, m), u) == Plus(At(c, u), At(m, u))
  {
  }

  /** The records' contribution maps added up from the empty map, in list order. */
  function ContributionsFold(xs: seq<RepoRecord>): map<string, Contribution>
  {
    if xs == [] then map[] else AddAll(ContributionsFold(xs[..|xs| - 1]), xs[|xs| - 1].userContributions)
  }

  lemma {:induction false} MergeContributionsIsFold(xs: seq<RepoRecord>)
    ensures MergeAll(xs).userContributions == ContributionsFold(xs)
    decreases |xs|
  {
    if xs != [] {
      MergeContributionsIsFold(xs[..|xs| - 1]);
      MergeAllStep(xs, PrsCreated, TimeToMerge, CommentsPerPr);
    }
  }

  lemma {:induction false} ContributionsFoldKeys(xs: seq<RepoRecord>, u: string)
    ensures u in ContributionsFold(xs) <==> exists i :: 0 <= i < |xs| && u in xs[i].userContributions
    decreases |xs|
  {
    if xs != [] {
      var init := xs[..|xs| - 1];
      var last := xs[|xs| - 1].userContributions;
      ContributionsFoldKeys(init, u);
      AddAt(ContributionsFold(init), last, u);
      assert forall i :: 0 <= i < |init| ==> init[i] == xs[i];
      if u in ContributionsFold(xs) && u !in last {
        var i :| 0 <= i < |init| && u in init[i].userContributions;
      }
    }
  }

  lemma {:induction false} ContributionsFoldSums(xs: seq<RepoRecord>, u: string)
    ensures At(ContributionsFold(xs), u) == Contribution(CreatedTotal(xs, u), MergedTotal(xs, u))
    decreases |xs|
  {
    if xs != [] {
      var init := xs[..|xs| - 1];
      ContributionsFoldSums(init, u);
      AddAt(ContributionsFold(init), xs[|xs| - 1].userContributions, u);
    }
  }

  /**
   * A user is a key of the merged contributions exactly when some record has
   * them, and their counts are the sums of their counts over the records.
   */
  lemma MergeAddsContributions(xs: seq<RepoRecord>, u: string)
    ensures u in MergeAll(xs).userContributions <==> exists i :: 0 <= i < |xs| && u in xs[i].userContributions
    ensures At(MergeAll(xs).userContributions, u) == Contribution(CreatedTotal(xs, u), MergedTotal(xs, u))
  {
    MergeContributionsIsFold(xs);
    ContributionsFoldKeys(xs, u);
    ContributionsFoldSums(xs, u);
  }

  /** Merging two records that keep the counters' relations keeps them. */
  lemma MergeIntoTotals(c: RepoRecord, x: RepoRecord)
    requires TotalsOk(c) && TotalsOk(x)
    ensures TotalsOk(MergeInto(c, x))
  {
    SumConcat(c.timeToMerge, x.timeToMerge);
    SumConcat(c.leadTimes, x.leadTimes);
  }

  /** The merged record of repositories' records keeps the counters' relations. */
  lemma {:induction false} MergeKeepsTotals(xs: seq<RepoRecord>)
    requires forall i :: 0 <= i < |xs| ==> TotalsOk(xs[i])
    ensures TotalsOk(MergeAll(xs))
    decreases |xs|
  {
    if xs != [] {
      var init := xs[..|xs| - 1];
      assert forall i :: 0 <= i < |init| ==> init[i] == xs[i];
      MergeKeepsTotals(init);
      MergeIntoTotals(MergeAll(init), xs[|xs| - 1]);
    }
  }

  // ---------------------------------------------------------------- the summary figures

  /** `(end_date - start_date).days + 1`, with timedelta.days rounded down. */
  function DaysInPeriod(start: int, end: int): int
  {
    (end - start) / Clock.Day + 1
  }

  /** `prs_merged_to_main / days_in_period`; None for the ZeroDivisionError. */
  function DeploymentFrequency(c: RepoRecord, start: int, end: int): (f: Option<real>)
    ensures f.Some? ==> f.value * DaysInPeriod(start, end) as real == c.prsMergedToMain as real
  {
    var days := DaysInPeriod(start, end);
    if days == 0 then None else Some(c.prsMergedToMain as real / days as real)
  }

  /**
   * The division fails exactly when the end lies less than a day before the
   * start; for an ordered window the frequency is defined, at least one day
   * long, and non-negative.
   */
  lemma FrequencyDefined(c: RepoRecord, start: int, end: int)
    ensures DeploymentFrequency(c, start, end).None? <==> -Clock.Day <= end - start < 0
    ensures start <= end ==> DaysInPeriod(start, end) >= 1 && DeploymentFrequency(c, start, end).Some?
    ensures start <= end && c.prsMergedToMain >= 0 ==> DeploymentFrequency(c, start, end).value >= 0.0
  {
    if start <= end {
      assert (end - start) / Clock.Day >= 0;
    }
  }

  /** `sum(comments_per_pr.values()) / prs_created`, or 0 with no pull requests. */
  ghost function AvgCommentsPerPr(c: RepoRecord): (a: real)
    ensures c.prsCreated <= 0 ==> a == 0.0
    ensures c.prsCreated > 0 ==> a * c.prsCreated as real == MapSum(c.commentsPerPr) as real
  {
    if c.prsCreated > 0 then MapSum(c.commentsPerPr) as real / c.prsCreated as real else 0.0
  }

  /** Comment counts are never negative, and neither is their average. */
  lemma AvgCommentsNonNegative(c: RepoRecord)
    requires forall k :: k in c.commentsPerPr ==> c.commentsPerPr[k] >= 0
    ensures AvgCommentsPerPr(c) >= 0.0
  {
    forall k | k in c.commentsPerPr
      ensures c.commentsPerPr[k] >= 0
    {
    }
    MapSumNonNegative(c.commentsPerPr);
  }

  /** `sum(time_to_merge) / len(time_to_merge)`, or 0 with no samples. */
  function AvgTimeToMerge(c: RepoRecord): real
  {
    Mean(c.timeToMerge)
  }

  /**
   * Each merged pull request adds its duration twice to `time_to_merge`, so
   * the average time to merge equals the mean of the lead times.
   */
  lemma AvgTimeToMergeIsMeanLead(c: RepoRecord)
    requires TotalsOk(c)
    ensures AvgTimeToMerge(c) == Mean(c.leadTimes)
  {
    if c.leadTimes != [] {
      var n := |c.leadTimes| as real;
      var s := Sum(c.leadTimes) as real;
      assert Mean(c.leadTimes) == s / n;
      assert AvgTimeToMerge(c) == (2.0 * s) / (2.0 * n);
    }
  }
}

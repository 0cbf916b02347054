// The older process_pr and process_repository (wellcode_cli/github/github_metrics.py)
// in the source's own form: statements that update the organisation object's
// records one after another, with the comment, review and response-time loops.
// Each phase is proved against the functions of LegacyGithubPasses, so the
// whole method ends in the state ProcessPr describes.

module LegacyGithubProcess {
  import opened Common
  import opened GithubData
  import opened GithubAccumulators
  import opened LegacyGithubOrg
  import opened LegacyGithubPasses

  // ---------------------------------------------------------------- the author's first updates

  /**
   * The repository's and the organisation's share of process_pr's first
   * statements: the created and merged counters, the contributor and the
   * code accumulators.
   */
  method OpenPr(m: Tallies, rec: Repo, pr: PullRequest) returns (m': Tallies, r: Repo)
    ensures m' == m.(code := CodeStep(m.code, pr))
    ensures r == rec.(prsCreated := rec.prsCreated + 1,
                      prsMerged := rec.prsMerged + (if Merged(pr) then 1 else 0),
                      prsMergedToMain := rec.prsMergedToMain + (if Merged(pr) && pr.baseRef == rec.defaultBranch then 1 else 0),
                      contributors := rec.contributors + {pr.author},
                      metrics := rec.metrics.(code := CodeStep(rec.metrics.code, pr)))
  {
    r := rec.(prsCreated := rec.prsCreated + 1);
    r := r.(contributors := r.contributors + {pr.author});
    if pr.mergedAt.Some? {
      r := r.(prsMerged := r.prsMerged + 1);
      if pr.baseRef == r.defaultBranch {
        r := r.(prsMergedToMain := r.prsMergedToMain + 1);
      }
    }
    r := r.(metrics := r.metrics.(code := CodeStep(r.metrics.code, pr)));
    m' := m.(code := CodeStep(m.code, pr));
  }

  /**
   * The author's share: get_or_create_user, the created and merged
   * counters, the code accumulator and the received review comments.
   */
  method OpenAuthor(users: map<string, User>, pr: PullRequest) returns (users': map<string, User>)
    ensures users' == AuthorOpen(users, pr)
  {
    var author := pr.author;
    var us := users;
    if author !in us {
      us := us[author := NewUser(author, "")];
    }
    var u := us[author];
    var created, merged := u.prsCreated + 1, u.prsMerged;
    if pr.mergedAt.Some? {
      merged := merged + 1;
    }
    var m := u.metrics;
    var code := CodeStep(m.code, pr);
    var received := m.review.commentsReceived + |pr.reviewComments|;
    u := u.(prsCreated := created, prsMerged := merged, metrics := m.(code := code, review := m.review.(commentsReceived := received)));
    users' := us[author := u];
    AuthorOpenIs(users, pr, us, u);
  }

  lemma AuthorOpenIs(users: map<string, User>, pr: PullRequest, us: map<string, User>, u: User)
    requires us == Person(users, pr.author)
    requires var u0 := us[pr.author];
      u.username == u0.username && u.team == u0.team
      && u.prsCreated == u0.prsCreated + 1 && u.prsMerged == u0.prsMerged + (if Merged(pr) then 1 else 0)
      && u.metrics == u0.metrics.(code := CodeStep(u0.metrics.code, pr),
           review := u0.metrics.review.(commentsReceived := u0.metrics.review.commentsReceived + |pr.reviewComments|))
    ensures AuthorOpen(users, pr) == us[pr.author := u]
  {
  }

  // ---------------------------------------------------------------- the comment loop

  /** One comment: skipped without an author, else a comment given and update_from_comments at the commenter, the repository and the organisation. */
  method CommentOne(users: map<string, User>, m: Tallies, rec: Repo, c: Comment, n: int)
      returns (users': map<string, User>, m': Tallies, r: Repo)
    ensures users' == CommentUser(users, c, n)
    ensures m' == m.(review := CommentsGiven(m.review, [c]), collab := CommentStep(m.collab, c, n))
    ensures r == rec.(metrics := rec.metrics.(review := CommentsGiven(rec.metrics.review, [c]),
                                              collab := CommentStep(rec.metrics.collab, c, n)))
  {
    assert [c][..0] == [];
    assert CommentsWithUser([c]) == if c.user.Some? then 1 else 0;
    users', m', r := users, m, rec;
    if c.user.Some? {
      users' := CommenterRecord(users, c, n);
      m' := m'.(review := GaveOne(m'.review), collab := CommentStep(m'.collab, c, n));
      r := r.(metrics := r.metrics.(review := GaveOne(r.metrics.review), collab := CommentStep(r.metrics.collab, c, n)));
    }
  }

  /** A comment with an author at that person's record: get_or_create_user, a comment given and update_from_comments. */
  method CommenterRecord(users: map<string, User>, c: Comment, n: int) returns (users': map<string, User>)
    requires c.user.Some?
    ensures users' == CommentUser(users, c, n)
  {
    var login := c.user.value;
    var us := users;
    if login !in us {
      us := us[login := NewUser(login, "")];
    }
    var m := us[login].metrics;
    m := m.(review := GaveOne(m.review));
    m := m.(collab := CommentStep(m.collab, c, n));
    users' := us[login := us[login].(metrics := m)];
    CommentUserIs(users, c, n, us, m);
  }

  lemma CommentUserIs(users: map<string, User>, c: Comment, n: int, us: map<string, User>, m: Tallies)
    requires c.user.Some? && us == Person(users, c.user.value)
    requires var m0 := us[c.user.value].metrics; m == m0.(review := GaveOne(m0.review), collab := CommentStep(m0.collab, c, n))
    ensures CommentUser(users, c, n) == us[c.user.value := us[c.user.value].(metrics := m)]
  {
  }

  /** The fold functions of the comment loop take one more comment. */
  lemma CommentsNext(users: map<string, User>, t: ReviewTally, c: CollabTally, cs: seq<Comment>, i: nat, n: int)
    requires i < |cs|
    ensures CommentUsers(users, cs[..i + 1], n) == CommentUser(CommentUsers(users, cs[..i], n), cs[i], n)
    ensures CommentsGiven(t, cs[..i + 1]) == CommentsGiven(CommentsGiven(t, cs[..i]), [cs[i]])
    ensures CommentsStep(c, cs[..i + 1], n) == CommentStep(CommentsStep(c, cs[..i], n), cs[i], n)
  {
    assert cs[..i + 1][..i] == cs[..i];
    assert [cs[i]][..0] == [];
  }

  /** `for comment in review_comments + issue_comments`. */
  method CommentLoop(users: map<string, User>, m: Tallies, rec: Repo, cs: seq<Comment>, n: int)
      returns (users': map<string, User>, m': Tallies, r: Repo)
    ensures users' == CommentUsers(users, cs, n)
    ensures m' == m.(review := CommentsGiven(m.review, cs), collab := CommentsStep(m.collab, cs, n))
    ensures r == rec.(metrics := rec.metrics.(review := CommentsGiven(rec.metrics.review, cs),
                                              collab := CommentsStep(rec.metrics.collab, cs, n)))
  {
    users', m', r := users, m, rec;
    var i := 0;
    while i < |cs|
      invariant 0 <= i <= |cs|
      invariant users' == CommentUsers(users, cs[..i], n)
      invariant m' == m.(review := CommentsGiven(m.review, cs[..i]), collab := CommentsStep(m.collab, cs[..i], n))
      invariant r == rec.(metrics := rec.metrics.(review := CommentsGiven(rec.metrics.review, cs[..i]),
                                                  collab := CommentsStep(rec.metrics.collab, cs[..i], n)))
    {
      CommentsNext(users, m.review, m.collab, cs, i, n);
      CommentsNext(users, rec.metrics.review, rec.metrics.collab, cs, i, n);
      users', m', r := CommentOne(users', m', r, cs[i], n);
      i := i + 1;
    }
    assert cs[..i] == cs;
  }

  // ---------------------------------------------------------------- review cycles and the review loop

  /** The review cycles, appended at the three levels when there are any. */
  method CyclesPr(users: map<string, User>, m: Tallies, rec: Repo, pr: PullRequest)
      returns (users': map<string, User>, m': Tallies, r: Repo)
    requires pr.author in users
    ensures users' == AuthorCycles(users, pr)
    ensures m' == m.(review := Cycled(m.review, ChangesRequested(pr.reviews)))
    ensures r == rec.(metrics := rec.metrics.(review := Cycled(rec.metrics.review, ChangesRequested(pr.reviews))))
  {
    var cycles := ChangesRequested(pr.reviews);
    m', r := m, rec;
    var a := users[pr.author].metrics;
    if cycles > 0 {
      r := r.(metrics := r.metrics.(review := r.metrics.review.(cycles := r.metrics.review.cycles + [cycles])));
      m' := m'.(review := m'.review.(cycles := m'.review.cycles + [cycles]));
      a := a.(review := a.review.(cycles := a.review.cycles + [cycles]));
    }
    users' := users[pr.author := users[pr.author].(metrics := a)];
  }

  /** Someone recorded after the first records reads the team they had there, or none when new. */
  lemma KnownTeamOf(users0: map<string, User>, users: map<string, User>, u: string)
    requires Known(users0, users) && u in users
    ensures users[u].team == TeamOf(users0, u)
  {
  }

  /**
   * One review: skipped without an author; else the reviewer's and the
   * author's records (ReviewerRecords), then the repository's and the
   * organisation's accumulators with the teams as now recorded.
   */
  method ReviewOne(users: map<string, User>, m: Tallies, rec: Repo, rv: Review, pr: PullRequest, ghost users0: map<string, User>)
      returns (users': map<string, User>, m': Tallies, r: Repo)
    requires pr.author in users && Known(users0, users)
    ensures users' == ReviewUser(users, rv, pr)
    ensures m' == m.(review := ReviewStep(m.review, rv, pr), collab := KindsStep(m.collab, rv, pr, users0))
    ensures r == rec.(metrics := rec.metrics.(review := ReviewStep(rec.metrics.review, rv, pr),
                                              collab := KindsStep(rec.metrics.collab, rv, pr, users0)))
  {
    users', m', r := users, m, rec;
    if rv.user.Some? {
      var v := rv.user.value;
      users' := ReviewerRecords(users, rv, pr);
      ReviewUserExtends(users, rv, pr);
      KnownThenExtend(users0, users, users');
      var authorTeam, reviewerTeam := users'[pr.author].team, users'[v].team;
      KnownTeamOf(users0, users', pr.author);
      KnownTeamOf(users0, users', v);
      var orgCollab := ReviewCollab(m.collab, rv, pr, authorTeam, reviewerTeam, users0);
      var repoCollab := ReviewCollab(r.metrics.collab, rv, pr, authorTeam, reviewerTeam, users0);
      m' := m.(review := ReviewStep(m.review, rv, pr), collab := orgCollab);
      r := r.(metrics := r.metrics.(review := ReviewStep(r.metrics.review, rv, pr), collab := repoCollab));
    }
  }

  /**
   * A review with an author at a collaboration accumulator: the self-merge
   * when the author reviews, the collaboration update and the team block.
   */
  method ReviewCollab(c: CollabTally, rv: Review, pr: PullRequest,
                      authorTeam: string, reviewerTeam: string, ghost users0: map<string, User>) returns (d: CollabTally)
    requires rv.user.Some? && authorTeam == TeamOf(users0, pr.author) && reviewerTeam == TeamOf(users0, rv.user.value)
    ensures d == KindsStep(c, rv, pr, users0)
  {
    d := c;
    if rv.user.value == pr.author {
      d := SelfOne(d);
    }
    d := CollabReviewStep(d, rv, pr, authorTeam, reviewerTeam);
    d := TeamBlock(d, authorTeam, reviewerTeam);
  }

  /**
   * A review with an author at the people's records: get_or_create_user for
   * the reviewer, their update_from_review, the author's self-merge, then the
   * reviewer's collaboration update and team block with the teams as recorded.
   */
  method ReviewerRecords(users: map<string, User>, rv: Review, pr: PullRequest) returns (users': map<string, User>)
    requires rv.user.Some? && pr.author in users
    ensures users' == ReviewUser(users, rv, pr)
  {
    var v := rv.user.value;
    var us := users;
    if v !in us {
      us := us[v := NewUser(v, "")];
    }
    ghost var u1 := us;
    var w := us[v].metrics;
    us := us[v := us[v].(metrics := w.(review := ReviewStep(w.review, rv, pr)))];
    ghost var u2 := us;
    if v == pr.author {
      var a := us[pr.author].metrics;
      us := us[pr.author := us[pr.author].(metrics := a.(collab := SelfOne(a.collab)))];
    }
    ghost var u3 := us;
    var authorTeam, reviewerTeam := us[pr.author].team, us[v].team;
    var x := us[v].metrics.collab;
    x := CollabReviewStep(x, rv, pr, authorTeam, reviewerTeam);
    x := TeamBlock(x, authorTeam, reviewerTeam);
    users' := us[v := us[v].(metrics := us[v].metrics.(collab := x))];
    ReviewUserIs(users, rv, pr, u1, u2, u3, users');
  }

  lemma ReviewUserIs(users: map<string, User>, rv: Review, pr: PullRequest,
                     u1: map<string, User>, u2: map<string, User>, u3: map<string, User>, u4: map<string, User>)
    requires rv.user.Some? && pr.author in users
    requires var v := rv.user.value;
      u1 == Person(users, v)
      && u2 == u1[v := u1[v].(metrics := u1[v].metrics.(review := ReviewStep(u1[v].metrics.review, rv, pr)))]
      && u3 == (if v == pr.author
                then u2[pr.author := u2[pr.author].(metrics := u2[pr.author].metrics.(collab := SelfOne(u2[pr.author].metrics.collab)))]
                else u2)
      && u4 == u3[v := u3[v].(metrics := u3[v].metrics.(collab :=
                 TeamBlock(CollabReviewStep(u3[v].metrics.collab, rv, pr, u3[pr.author].team, u3[v].team), u3[pr.author].team, u3[v].team)))]
    ensures ReviewUser(users, rv, pr) == u4
  {
  }

  /** The fold functions of the review loop take one more review. */
  lemma ReviewsNext(users: map<string, User>, t: ReviewTally, c: CollabTally, reviews: seq<Review>, i: nat,
                    pr: PullRequest, users0: map<string, User>)
    requires i < |reviews| && pr.author in users
    ensures ReviewUsers(users, reviews[..i + 1], pr) == ReviewUser(ReviewUsers(users, reviews[..i], pr), reviews[i], pr)
    ensures ReviewSteps(t, reviews[..i + 1], pr) == ReviewStep(ReviewSteps(t, reviews[..i], pr), reviews[i], pr)
    ensures KindsSteps(c, reviews[..i + 1], pr, users0) == KindsStep(KindsSteps(c, reviews[..i], pr, users0), reviews[i], pr, users0)
  {
    assert reviews[..i + 1][..i] == reviews[..i];
  }

  /** `for review in reviews`, with the teams as the people were recorded before the pull request (`users0`). */
  method ReviewLoop(users: map<string, User>, m: Tallies, rec: Repo, pr: PullRequest, ghost users0: map<string, User>)
      returns (users': map<string, User>, m': Tallies, r: Repo)
    requires pr.author in users && Known(users0, users)
    ensures users' == ReviewUsers(users, pr.reviews, pr)
    ensures m' == m.(review := ReviewSteps(m.review, pr.reviews, pr), collab := KindsSteps(m.collab, pr.reviews, pr, users0))
    ensures r == rec.(metrics := rec.metrics.(review := ReviewSteps(rec.metrics.review, pr.reviews, pr),
                                              collab := KindsSteps(rec.metrics.collab, pr.reviews, pr, users0)))
  {
    users', m', r := users, m, rec;
    var reviews := pr.reviews;
    var i := 0;
    while i < |reviews|
      invariant 0 <= i <= |reviews|
      invariant users' == ReviewUsers(users, reviews[..i], pr)
      invariant pr.author in users' && Known(users0, users')
      invariant m' == m.(review := ReviewSteps(m.review, reviews[..i], pr), collab := KindsSteps(m.collab, reviews[..i], pr, users0))
      invariant r == rec.(metrics := rec.metrics.(review := ReviewSteps(rec.metrics.review, reviews[..i], pr),
                                                  collab := KindsSteps(rec.metrics.collab, reviews[..i], pr, users0)))
    {
      ReviewsNext(users, m.review, m.collab, reviews, i, pr, users0);
      ReviewsNext(users, rec.metrics.review, rec.metrics.collab, reviews, i, pr, users0);
      ghost var before := users';
      users', m', r := ReviewOne(users', m', r, reviews[i], pr, users0);
      ReviewUserExtends(before, reviews[i], pr);
      KnownThenExtend(users0, before, users');
      i := i + 1;
    }
    assert reviews[..i] == reviews;
  }

  // ---------------------------------------------------------------- merge times, bottlenecks and waits

  /** The time accumulators of the three levels: for a merged pull request update_from_pr with the first commit, then its cycle time. */
  method MergeTimes(t1: TimeTally, t2: TimeTally, t3: TimeTally, pr: PullRequest) returns (s1: TimeTally, s2: TimeTally, s3: TimeTally)
    ensures s1 == TimeLevel(t1, pr) && s2 == TimeLevel(t2, pr) && s3 == TimeLevel(t3, pr)
  {
    s1, s2, s3 := t1, t2, t3;
    if pr.mergedAt.Some? {
      var first := if pr.commits != [] then Some(pr.commits[|pr.commits| - 1].committerDate) else None;
      s1, s2, s3 := TimeStep(s1, pr, first), TimeStep(s2, pr, first), TimeStep(s3, pr, first);
      if first.Some? {
        var cycle := pr.mergedAt.value - first.value;
        s1 := s1.(cycleTimes := s1.cycleTimes + [cycle]);
        s2 := s2.(cycleTimes := s2.cycleTimes + [cycle]);
        s3 := s3.(cycleTimes := s3.cycleTimes + [cycle]);
      }
    }
  }

  lemma GapsNext(t: seq<Review>, i: nat)
    requires 1 <= i < |t|
    ensures Gaps(t[..i + 1]) == Gaps(t[..i]) + [t[i].submittedAt - t[i - 1].submittedAt]
  {
    assert t[..i + 1][..i] == t[..i];
  }

  /** `for i in range(1, len(sorted_reviews))`: every gap between consecutive reviews, appended to three lists. */
  method ResponseLoop(sorted: seq<Review>, a: seq<int>, b: seq<int>, c: seq<int>) returns (a': seq<int>, b': seq<int>, c': seq<int>)
    ensures a' == a + Gaps(sorted) && b' == b + Gaps(sorted) && c' == c + Gaps(sorted)
  {
    a', b', c' := a, b, c;
    if |sorted| < 2 {
      return;
    }
    var i := 1;
    assert Gaps(sorted[..1]) == [];
    while i < |sorted|
      invariant 1 <= i <= |sorted|
      invariant a' == a + Gaps(sorted[..i]) && b' == b + Gaps(sorted[..i]) && c' == c + Gaps(sorted[..i])
    {
      GapsNext(sorted, i);
      var gap := sorted[i].submittedAt - sorted[i - 1].submittedAt;
      a', b', c' := a' + [gap], b' + [gap], c' + [gap];
      i := i + 1;
    }
    assert sorted[..i] == sorted;
  }

  /** The bottleneck accumulators of the three levels: update_from_pr, then the first-review wait and the response times when there are reviews. */
  method WaitsAll(b1: BottleneckTally, b2: BottleneckTally, b3: BottleneckTally, pr: PullRequest, now: int)
      returns (c1: BottleneckTally, c2: BottleneckTally, c3: BottleneckTally)
    ensures c1 == Waits(b1, pr, now) && c2 == Waits(b2, pr, now) && c3 == Waits(b3, pr, now)
  {
    c1, c2, c3 := BottleneckStep(b1, pr, now), BottleneckStep(b2, pr, now), BottleneckStep(b3, pr, now);
    if pr.reviews != [] {
      var wait := FirstSubmission(pr.reviews) - pr.createdAt;
      c1 := c1.(waitTimes := c1.waitTimes + [wait]);
      c2 := c2.(waitTimes := c2.waitTimes + [wait]);
      c3 := c3.(waitTimes := c3.waitTimes + [wait]);
      var sorted := SortBySubmission(pr.reviews);
      var r1, r2, r3 := ResponseLoop(sorted, c1.responseTimes, c2.responseTimes, c3.responseTimes);
      c1, c2, c3 := c1.(responseTimes := r1), c2.(responseTimes := r2), c3.(responseTimes := r3);
    }
  }

  /** The merge times and bottlenecks at the repository, the organisation and the author. */
  method ClosePr(users: map<string, User>, m: Tallies, rec: Repo, pr: PullRequest, now: int)
      returns (users': map<string, User>, m': Tallies, r: Repo)
    requires pr.author in users
    ensures users' == AuthorClose(users, pr, now)
    ensures m' == m.(time := TimeLevel(m.time, pr), bottleneck := Waits(m.bottleneck, pr, now))
    ensures r == rec.(metrics := rec.metrics.(time := TimeLevel(rec.metrics.time, pr), bottleneck := Waits(rec.metrics.bottleneck, pr, now)))
  {
    var a := users[pr.author].metrics;
    var repoTime, orgTime, userTime := MergeTimes(rec.metrics.time, m.time, a.time, pr);
    var repoB, orgB, userB := WaitsAll(rec.metrics.bottleneck, m.bottleneck, a.bottleneck, pr, now);
    r := rec.(metrics := rec.metrics.(time := repoTime, bottleneck := repoB));
    m' := m.(time := orgTime, bottleneck := orgB);
    users' := users[pr.author := users[pr.author].(metrics := a.(time := userTime, bottleneck := userB))];
  }

  // ---------------------------------------------------------------- teams involved

  /** ReviewerTeams takes one more review. */
  lemma ReviewerTeamsNext(users: map<string, User>, reviews: seq<Review>, i: nat)
    requires i < |reviews|
    ensures var rv := reviews[i];
      var t := if rv.user.Some? then TeamOf(users, rv.user.value) else "";
      ReviewerTeams(users, reviews[..i + 1]) == ReviewerTeams(users, reviews[..i]) + (if t != "" then {t} else {})
  {
    assert reviews[..i + 1][..i] == reviews[..i];
  }

  /** The author's team, then every recorded reviewer's, when these have one. */
  method TeamsOfPr(users: map<string, User>, rec: Repo, pr: PullRequest) returns (r: Repo)
    requires pr.author in users
    ensures r == rec.(teamsInvolved := rec.teamsInvolved + AuthorTeams(users, pr.author) + ReviewerTeams(users, pr.reviews))
  {
    var teams := rec.teamsInvolved;
    if users[pr.author].team != "" {
      teams := teams + {users[pr.author].team};
    }
    ghost var t0 := teams;
    var reviews := pr.reviews;
    var i := 0;
    while i < |reviews|
      invariant 0 <= i <= |reviews|
      invariant teams == t0 + ReviewerTeams(users, reviews[..i])
    {
      ReviewerTeamsNext(users, reviews, i);
      var rv := reviews[i];
      if rv.user.Some? && rv.user.value in users {
        var team := users[rv.user.value].team;
        if team != "" {
          teams := teams + {team};
        }
      }
      i := i + 1;
    }
    assert reviews[..i] == reviews;
    r := rec.(teamsInvolved := teams);
  }

  // ---------------------------------------------------------------- process_pr

  /** process_pr up to the review loop: the author's first updates, the comment loop and the review cycles. */
  method OpenPhase(users: map<string, User>, m: Tallies, rec: Repo, pr: PullRequest)
      returns (users': map<string, User>, m': Tallies, r: Repo)
    ensures users' == AuthorCycles(CommentUsers(AuthorOpen(users, pr), pr.reviewComments + pr.issueComments, pr.number), pr)
    ensures pr.author in users' && Known(users, users')
    ensures m' == m.(code := CodeStep(m.code, pr),
                     review := Cycled(CommentsGiven(m.review, pr.reviewComments + pr.issueComments), ChangesRequested(pr.reviews)),
                     collab := CommentsStep(m.collab, pr.reviewComments + pr.issueComments, pr.number))
    ensures r == rec.(prsCreated := rec.prsCreated + 1,
                      prsMerged := rec.prsMerged + (if Merged(pr) then 1 else 0),
                      prsMergedToMain := rec.prsMergedToMain + (if Merged(pr) && pr.baseRef == rec.defaultBranch then 1 else 0),
                      contributors := rec.contributors + {pr.author},
                      metrics := rec.metrics.(
                        code := CodeStep(rec.metrics.code, pr),
                        review := Cycled(CommentsGiven(rec.metrics.review, pr.reviewComments + pr.issueComments), ChangesRequested(pr.reviews)),
                        collab := CommentsStep(rec.metrics.collab, pr.reviewComments + pr.issueComments, pr.number)))
  {
    m', r := OpenPr(m, rec, pr);
    var u1 := OpenAuthor(users, pr);
    AuthorOpenEffect(users, pr);
    var u2;
    u2, m', r := CommentLoop(u1, m', r, pr.reviewComments + pr.issueComments, pr.number);
    CommentUsersExtend(u1, pr.reviewComments + pr.issueComments, pr.number);
    KnownThenExtend(users, u1, u2);
    users', m', r := CyclesPr(u2, m', r, pr);
    WithTalliesExtends(u2, pr.author, u2[pr.author].metrics.(review := Cycled(u2[pr.author].metrics.review, ChangesRequested(pr.reviews))));
    KnownThenExtend(users, u2, users');
  }

  /** process_pr from the review loop on: the reviews, then the merge times and bottlenecks. */
  method ClosePhase(users: map<string, User>, m: Tallies, rec: Repo, pr: PullRequest, now: int, ghost users0: map<string, User>)
      returns (users': map<string, User>, m': Tallies, r: Repo)
    requires pr.author in users && Known(users0, users)
    ensures users' == AuthorClose(ReviewUsers(users, pr.reviews, pr), pr, now)
    ensures m' == m.(review := ReviewSteps(m.review, pr.reviews, pr),
                     collab := KindsSteps(m.collab, pr.reviews, pr, users0),
                     time := TimeLevel(m.time, pr),
                     bottleneck := Waits(m.bottleneck, pr, now))
    ensures r == rec.(metrics := rec.metrics.(
                        review := ReviewSteps(rec.metrics.review, pr.reviews, pr),
                        collab := KindsSteps(rec.metrics.collab, pr.reviews, pr, users0),
                        time := TimeLevel(rec.metrics.time, pr),
                        bottleneck := Waits(rec.metrics.bottleneck, pr, now)))
  {
    var u1;
    u1, m', r := ReviewLoop(users, m, rec, pr, users0);
    ReviewUsersExtend(users, pr.reviews, pr);
    users', m', r := ClosePr(u1, m', r, pr, now);
  }

  /**
   * process_pr with update_timestamp taking the instant: the creation
   * instant, everything up to the review cycles, the reviews, the merge
   * times and bottlenecks, the teams involved and the closing instant, ending
   * in the state ProcessPr describes. The statements work on the
   * organisation's records read into locals, written back at the end.
   */
  method ProcessPullRequest(org: LegacyOrganizationMetrics, pr: PullRequest, repo: string, now: int)
    requires org.Valid() && repo in org.repositories
    modifies org`repositories, org`users, org`review, org`code, org`time, org`collab, org`bottleneck
    ensures org.State() == ProcessPr(old(org.State()), pr, repo, now)
    ensures org.Valid()
  {
    ghost var o := org.State();
    var users, m := org.users, Tallies(org.review, org.code, org.time, org.collab, org.bottleneck);
    var rec := org.repositories[repo];
    rec := TouchRepo(rec, Some(pr.createdAt), now);
    ghost var touched := rec;
    var users1, m1, rec1 := OpenPhase(users, m, rec, pr);
    var users2, m2, rec2 := ClosePhase(users1, m1, rec1, pr, now, users);
    var rec3 := TeamsOfPr(users2, rec2, pr);
    var rec4 := TouchRepo(rec3, pr.mergedAt, now);
    ghost var r := o.(repositories := o.repositories[repo := rec4], users := users2, metrics := m2);
    Assemble(o, pr, repo, now, touched, rec1, rec2, rec3, rec4, users1, m1, users2, m2);
    Commit(org, repo, rec4, users2, m2, r);
  }

  /** Writes the records process_pr leaves back into the organisation's fields. */
  method Commit(org: LegacyOrganizationMetrics, repo: string, rec: Repo, users: map<string, User>, m: Tallies, ghost r: Org)
    requires r == org.State().(repositories := org.repositories[repo := rec], users := users, metrics := m)
    requires OrgOk(r)
    modifies org`repositories, org`users, org`review, org`code, org`time, org`collab, org`bottleneck
    ensures org.State() == r && org.Valid()
  {
    org.repositories := org.repositories[repo := rec];
    org.users := users;
    org.review, org.code, org.time, org.collab, org.bottleneck := m.review, m.code, m.time, m.collab, m.bottleneck;
  }

  /** update_timestamp on a repository record: the later of its instant and t, the current one for None. */
  method TouchRepo(rec: Repo, t: Option<int>, now: int) returns (r: Repo)
    ensures r == Touched(rec, t, now)
  {
    var v := if t.Some? then t.value else now;
    r := rec;
    if v > r.lastUpdated {
      r := r.(lastUpdated := v);
    }
  }

  /** The values the phases leave are those of ProcessPr, and they keep the relations between the records. */
  lemma Assemble(o: Org, pr: PullRequest, repo: string, now: int, touched: Repo, rec1: Repo, rec2: Repo, rec3: Repo, rec4: Repo,
                 users1: map<string, User>, m1: Tallies, users: map<string, User>, m: Tallies)
    requires OrgOk(o) && repo in o.repositories
    requires touched == Touched(o.repositories[repo], Some(pr.createdAt), now)
    requires users1 == AuthorCycles(CommentUsers(AuthorOpen(o.users, pr), pr.reviewComments + pr.issueComments, pr.number), pr)
    requires m1 == o.metrics.(code := CodeStep(o.metrics.code, pr),
                     review := Cycled(CommentsGiven(o.metrics.review, pr.reviewComments + pr.issueComments), ChangesRequested(pr.reviews)),
                     collab := CommentsStep(o.metrics.collab, pr.reviewComments + pr.issueComments, pr.number))
    requires rec1 == touched.(prsCreated := touched.prsCreated + 1,
                      prsMerged := touched.prsMerged + (if Merged(pr) then 1 else 0),
                      prsMergedToMain := touched.prsMergedToMain + (if Merged(pr) && pr.baseRef == touched.defaultBranch then 1 else 0),
                      contributors := touched.contributors + {pr.author},
                      metrics := touched.metrics.(
                        code := CodeStep(touched.metrics.code, pr),
                        review := Cycled(CommentsGiven(touched.metrics.review, pr.reviewComments + pr.issueComments), ChangesRequested(pr.reviews)),
                        collab := CommentsStep(touched.metrics.collab, pr.reviewComments + pr.issueComments, pr.number)))
    requires users == AuthorClose(ReviewUsers(users1, pr.reviews, pr), pr, now)
    requires m == m1.(review := ReviewSteps(m1.review, pr.reviews, pr),
                     collab := KindsSteps(m1.collab, pr.reviews, pr, o.users),
                     time := TimeLevel(m1.time, pr),
                     bottleneck := Waits(m1.bottleneck, pr, now))
    requires rec2 == rec1.(metrics := rec1.metrics.(
                        review := ReviewSteps(rec1.metrics.review, pr.reviews, pr),
                        collab := KindsSteps(rec1.metrics.collab, pr.reviews, pr, o.users),
                        time := TimeLevel(rec1.metrics.time, pr),
                        bottleneck := Waits(rec1.metrics.bottleneck, pr, now)))
    requires rec3 == rec2.(teamsInvolved := rec2.teamsInvolved + AuthorTeams(users, pr.author) + ReviewerTeams(users, pr.reviews))
    requires rec4 == Touched(rec3, pr.mergedAt, now)
    ensures var r := o.(repositories := o.repositories[repo := rec4], users := users, metrics := m);
      r == ProcessPr(o, pr, repo, now) && OrgOk(r)
  {
    UsersPrTeams(o.users, pr, now);
    RepoPrIs(o.repositories[repo], pr, o.users, now, touched, rec4);
    ProcessPrIs(o, pr, repo, now, rec4, users, m);
    ProcessPrKeeps(o, pr, repo, now);
  }

  lemma RepoPrIs(a: Repo, pr: PullRequest, users: map<string, User>, now: int, touched: Repo, b: Repo)
    requires touched == Touched(a, Some(pr.createdAt), now)
    requires b.name == a.name && b.defaultBranch == a.defaultBranch
    requires b.prsCreated == a.prsCreated + 1
    requires b.prsMerged == a.prsMerged + (if Merged(pr) then 1 else 0)
    requires b.prsMergedToMain == a.prsMergedToMain + (if Merged(pr) && pr.baseRef == a.defaultBranch then 1 else 0)
    requires b.contributors == a.contributors + {pr.author}
    requires b.metrics == LevelPr(a.metrics, pr, users, now)
    requires b.teamsInvolved == a.teamsInvolved + AuthorTeams(users, pr.author) + ReviewerTeams(users, pr.reviews)
    requires b.lastUpdated == Touched(touched, pr.mergedAt, now).lastUpdated
    ensures b == RepoPr(a, pr, users, now)
  {
  }

  lemma ProcessPrIs(o: Org, pr: PullRequest, repo: string, now: int, b: Repo, users: map<string, User>, m: Tallies)
    requires repo in o.repositories
    requires b == RepoPr(o.repositories[repo], pr, o.users, now)
    requires users == UsersPr(o.users, pr, now)
    requires m == LevelPr(o.metrics, pr, o.users, now)
    ensures ProcessPr(o, pr, repo, now) == o.(repositories := o.repositories[repo := b], users := users, metrics := m)
  {
  }
}

// The pull-request records the GitHub accumulators and passes read
// (src/wellcode_cli/github/models/metrics.py, src/wellcode_cli/github/github_metrics.py
// and their older copies under wellcode_cli/github/). Only the fields the code
// reads are kept. Instants are UTC seconds (ensure_datetime is the identity on
// them); a pull request is merged exactly when it has a merge instant.

module GithubData {
  import opened Common
  import opened Text

  /** A review: its author's login (None for a deleted account), state, body and submission instant. */
  datatype Review = Review(user: Option<string>, state: string, body: string, submittedAt: int)

  /** A review comment or an issue comment: only its author is read. */
  datatype Comment = Comment(user: Option<string>)

  /** A commit's author and committer dates. */
  datatype Commit = Commit(authorDate: int, committerDate: int)

  datatype PullRequest = PullRequest(
    number: int,
    author: string,
    title: string,
    labels: seq<string>,
    createdAt: int,
    mergedAt: Option<int>,
    baseRef: string,
    additions: int,
    deletions: int,
    filesCount: nat,
    commits: seq<Commit>,
    reviews: seq<Review>,
    reviewComments: seq<Comment>,
    issueComments: seq<Comment>)

  predicate Merged(pr: PullRequest)
  {
    pr.mergedAt.Some?
  }

  /** Some label is "blocked" or "on hold", ignoring case. */
  predicate IsBlocked(pr: PullRequest)
  {
    exists i :: 0 <= i < |pr.labels| && (Lower(pr.labels[i]) == "blocked" || Lower(pr.labels[i]) == "on hold")
  }

  /** The lower-cased title mentions "revert". */
  predicate IsRevert(pr: PullRequest)
  {
    Contains(Lower(pr.title), "revert")
  }

  /** The lower-cased title mentions "hotfix", or some label is "hotfix" ignoring case. */
  predicate IsHotfix(pr: PullRequest)
  {
    Contains(Lower(pr.title), "hotfix") || exists i :: 0 <= i < |pr.labels| && Lower(pr.labels[i]) == "hotfix"
  }

  predicate HasUser(c: Comment)
  {
    c.user.Some?
  }

  /** The earliest submission instant: `min(reviews, key=submitted_at)`. */
  function FirstSubmission(reviews: seq<Review>): (t: int)
    requires reviews != []
    ensures exists i :: 0 <= i < |reviews| && reviews[i].submittedAt == t
    ensures forall i :: 0 <= i < |reviews| ==> t <= reviews[i].submittedAt
  {
    if |reviews| == 1 then reviews[0].submittedAt
    else
      var rest := FirstSubmission(reviews[1..]);
      assert forall i :: 1 <= i < |reviews| ==> reviews[i] == reviews[1..][i - 1];
      if reviews[0].submittedAt <= rest then reviews[0].submittedAt else rest
  }

  /** The earliest commit author date: `min(commits, key=author date)`. */
  function FirstAuthorDate(commits: seq<Commit>): (t: int)
    requires commits != []
    ensures exists i :: 0 <= i < |commits| && commits[i].authorDate == t
    ensures forall i :: 0 <= i < |commits| ==> t <= commits[i].authorDate
  {
    if |commits| == 1 then commits[0].authorDate
    else
      var rest := FirstAuthorDate(commits[1..]);
      assert forall i :: 1 <= i < |commits| ==> commits[i] == commits[1..][i - 1];
      if commits[0].authorDate <= rest then commits[0].authorDate else rest
  }

  /** Number of reviews in the CHANGES_REQUESTED state (the review cycles of a pull request). */
  function ChangesRequested(reviews: seq<Review>): (n: nat)
    ensures n <= |reviews|
  {
    if reviews == [] then 0
    else ChangesRequested(reviews[..|reviews| - 1]) + (if reviews[|reviews| - 1].state == "CHANGES_REQUESTED" then 1 else 0)
  }

  /** Number of comments that have an author. */
  function CommentsWithUser(comments: seq<Comment>): (n: nat)
    ensures n <= |comments|
  {
    if comments == [] then 0
    else CommentsWithUser(comments[..|comments| - 1]) + (if HasUser(comments[|comments| - 1]) then 1 else 0)
  }
}

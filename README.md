# wellcode-cli metrics core in Dafny

wellcode-cli is a command-line tool that reports on engineering work: pull
requests, reviews and comments from GitHub, issues from Linear, and feature
flags from Split. It also ships an interactive shell and a small runner game
that plays while the reports are computed. This project models the part of
the tool that folds records into metrics, and proves properties of that model.

- **GitHub accumulators** (`github_accumulators.dfy`). The five accumulators
  BottleneckMetrics, ReviewMetrics, CodeMetrics, TimeMetrics and
  CollaborationMetrics are classes whose update methods change their fields
  in place. Each is proved to move its `State()` by a value-level `...Step`
  function. The lemmas state what each step keeps: counts that add up,
  buckets that exclude each other, and sets that ignore repeats.
- **GitHub records** (`github_org.dfy`, `legacy_github_org.dfy`). These are
  the repository, user and organisation records of the current and the older
  models file. They include get-or-create, update_timestamp and update_teams,
  and the older repository-to-organisation rollup, aggregate_metrics.
- **GitHub passes** (`github_passes.dfy`). process_repository_batch and
  process_pr of src/wellcode_cli/github/github_metrics.py. The organisation is
  a value for the functions and an object for the methods. The batches and the
  per-PR passes run one after the other.
- **The older sequential collection** (`legacy_github_passes.dfy`,
  `legacy_github_process.dfy`, `legacy_github_repository.dfy`).
  process_repository and process_pr of wellcode_cli/github/github_metrics.py,
  twice: once as written, where process_pr raises before recording anything
  (see Findings), and once with the evidently intended body.
- **The dictionary-shaped report** (`dict_github.dfy`, `dict_merge.dfy`).
  process_pr on a repository's dict record, merge_metrics, and the summary
  figures of wellcode_cli/github_metrics.py.
- **Retry decorator** (`retry.dfy`). handle_github_errors as a loop over an
  oracle of call outcomes. Sleeps are recorded, not performed. The 401
  ("Unauthorized", section 15.5.2 of RFC 9110) and 403 ("Forbidden",
  section 15.5.4 of RFC 9110) cases are handled separately.
- **Timezone normalisation** (`datetimes.dfy`). ensure_datetime and
  is_within_range.
- **Linear report** (`linear_models.dfy`, `linear_calendar.dfy`,
  `linear_report.dfy`, `legacy_linear.dfy`). The issue accumulators, the
  working-time calendar arithmetic, the per-issue fold of get_linear_metrics
  and calculate_estimation_accuracy, plus the older dictionary-based fold.
  wellcode_cli/linear/models/metrics.py has the same content as the src copy,
  so `LinearModels` models both.
- **Command parsers** (`commands.dfy`,
  `legacy_commands.dfy`, `text.dfy`). parse_time_range and parse_command.
  wellcode_cli/commands/commands.py has the same two functions and the same
  mapping as src/wellcode_cli/commands/commands.py (lines 193-258 there,
  195-261 here), so `Commands` models both copies. The variant in
  wellcode_cli/commands.py is `LegacyCommands`.
- **Runner game** (`runner.dfy`). A class with the game's fields: reset_game,
  the jump key, the jump arc, power-ups, shield, obstacles and collisions, and
  _center_text. Random draws are parameters.
- **Split report** (`split_metrics.dfy`). The classification loop of
  get_split_metrics.
- Shared definitions: `common.dfy` (optional values, sums, the
  `defaultdict(int)` increment), `clock.dfy` (UTC seconds, weekday and hour
  with Monday = 0), `github_data.dfy` (pull requests, reviews, comments).

Instants and durations are whole seconds. Ratios and means are exact `real`
values. `datetime.now()` and the game's random draws are parameters.

## Model

| member | source | states |
|---|---|---|
| GithubAccumulators.BottleneckStepKeeps | src/wellcode_cli/github/models/metrics.py:71-98 | every update keeps long-running ≤ stale and the per-author blocked counts summing to blocked_prs |
| GithubAccumulators.BottleneckStepBlocked | src/wellcode_cli/github/models/metrics.py:75-91 | a merged pull request changes nothing; an open one adds to blocked_prs exactly when a label is "blocked" or "on hold", and then adds one to its author; one older than 336 hours counts as both stale and long-running |
| GithubAccumulators.BottleneckStatsOf | src/wellcode_cli/github/models/metrics.py:100-112 | the counters as kept, and each average the mean of its list (0 for an empty list) |
| GithubAccumulators.BottleneckMetrics.constructor | src/wellcode_cli/github/models/metrics.py:63-69 | all counters zero, lists and the user map empty |
| GithubAccumulators.BottleneckMetrics.UpdateFromPr | src/wellcode_cli/github/models/metrics.py:71-98 | update_from_pr changes the fields as BottleneckStep says and keeps the relations |
| GithubAccumulators.BottleneckMetrics.CountAge | src/wellcode_cli/github/models/metrics.py:77-84 | the stale and long-running counters after the two threshold tests |
| GithubAccumulators.BottleneckMetrics.CountBlocked | src/wellcode_cli/github/models/metrics.py:87-91 | the blocked counter and the author's count after the label test |
| GithubAccumulators.BottleneckMetrics.CountWait | src/wellcode_cli/github/models/metrics.py:94-98 | one wait sample, from creation to the earliest review, when there is a review |
| GithubAccumulators.ReviewStepKeeps | src/wellcode_cli/github/models/metrics.py:132-156 | every update keeps one wait sample per performed review, blocking reviews ≤ performed, and no empty reviewer set |
| GithubAccumulators.ReviewStepRecords | src/wellcode_cli/github/models/metrics.py:134-156 | a review without a user changes nothing; one with a user adds one performed review, one wait sample, and its login to the pull request's reviewer set |
| GithubAccumulators.ReviewStepReviewersIdempotent | src/wellcode_cli/github/models/metrics.py:138 | the same review applied twice leaves the reviewer sets as after once, while reviews_performed still grows twice |
| GithubAccumulators.ReviewerCountsAtLeastOne | src/wellcode_cli/github/models/metrics.py:170-174 | one count per reviewed pull request, and with no empty set their sum is at least the number of pull requests |
| GithubAccumulators.ReviewStatsOf | src/wellcode_cli/github/models/metrics.py:158-176 | counters as kept; avg_time_to_first_review and avg_review_cycles the means of their lists, 0 for an empty list; avg_reviewers_per_pr the mean reviewer-set size (0 with no pull requests, at least 1 otherwise) |
| GithubAccumulators.ReviewMetrics.constructor | src/wellcode_cli/github/models/metrics.py:120-130 | all counters zero and all lists and maps empty |
| GithubAccumulators.ReviewMetrics.UpdateFromReview | src/wellcode_cli/github/models/metrics.py:132-156 | update_from_review changes the fields as ReviewStep says and keeps the relations |
| GithubAccumulators.CodeStepKeeps | src/wellcode_cli/github/models/metrics.py:190-207 | every update keeps the three lists equally long, the change list summing to additions plus deletions, and avg_pr_size the mean change |
| GithubAccumulators.CodeStatsOf | src/wellcode_cli/github/models/metrics.py:209-223 | total_changes is additions plus deletions, equal to the sum of the change list under the relations; avg_pr_size, avg_files_changed and avg_commits_per_pr the means of their lists, each 0 for an empty list |
| GithubAccumulators.CodeMetrics.constructor | src/wellcode_cli/github/models/metrics.py:180-188 | empty lists and zero counters |
| GithubAccumulators.CodeMetrics.UpdateFromPr | src/wellcode_cli/github/models/metrics.py:190-207 | update_from_pr changes the fields as CodeStep says and keeps the relations |
| GithubAccumulators.CodeMetrics.CountSizes | src/wellcode_cli/github/models/metrics.py:192-197 | the size lists, totals and average after one pull request |
| GithubAccumulators.CodeMetrics.CountKinds | src/wellcode_cli/github/models/metrics.py:199-204 | one revert when the title mentions "revert", one hotfix when the title or a label says "hotfix" |
| GithubAccumulators.SlotOf | src/wellcode_cli/github/models/metrics.py:257-262 | weekend exactly on Saturday and Sunday, business hours exactly on a weekday between 09:00 and 16:59 |
| GithubAccumulators.Tick | src/wellcode_cli/github/models/metrics.py:257-262 | the three buckets together grow by exactly one |
| GithubAccumulators.TimeStepKeeps | src/wellcode_cli/github/models/metrics.py:236-262 | every update keeps the bucket total equal to the merge samples and lead times no more than them; an unmerged pull request changes nothing, a merged one adds one merge sample |
| GithubAccumulators.WeekendFirst | src/wellcode_cli/github/models/metrics.py:257-260 | a weekend merge counts as a weekend even between 09:00 and 17:00 |
| GithubAccumulators.TimeStatsOf | src/wellcode_cli/github/models/metrics.py:264-281 | distribution and deployment frequency as kept, avg_time_to_merge, avg_lead_time and avg_cycle_time the means of their lists, each 0 for an empty list |
| GithubAccumulators.TimeMetrics.constructor | src/wellcode_cli/github/models/metrics.py:227-234 | empty lists and all three buckets zero |
| GithubAccumulators.TimeMetrics.UpdateFromPr | src/wellcode_cli/github/models/metrics.py:236-262 | update_from_pr changes the fields as TimeStep says and keeps the relations |
| GithubAccumulators.CountCommentKeeps | src/wellcode_cli/github/models/metrics.py:321-331 | one comment keeps every per-user count positive and at most the pull request's, and adds one to the comment total |
| GithubAccumulators.CollabReviewKinds | src/wellcode_cli/github/models/metrics.py:296-312 | a review without a user changes nothing; one with a user adds one to exactly one of the four kinds, self-merge exactly for the author's own review, team review when both teams are equal and set |
| GithubAccumulators.CollabReviewKeeps | src/wellcode_cli/github/models/metrics.py:314-319 | every review keeps the comment relations and adds one comment exactly when it has a user and a body |
| GithubAccumulators.CollabReviewPerPr | src/wellcode_cli/github/models/metrics.py:315-318 | the review's pull request gets one more comment exactly when the review has a user and a body |
| GithubAccumulators.CommentsStepKeeps | src/wellcode_cli/github/models/metrics.py:321-331 | update_from_comments keeps the comment relations, adds one comment per comment with an author and leaves the review kinds alone |
| GithubAccumulators.CommentsStepKinds | src/wellcode_cli/github/models/metrics.py:321-331 | update_from_comments changes only the two comment maps |
| GithubAccumulators.CollabStatsOf | src/wellcode_cli/github/models/metrics.py:333-353 | total comments is the sum over pull requests, the average is 0 without comments and at least 1 otherwise, the participation rate lies in [0, 1] |
| GithubAccumulators.CollabStatsMeans | src/wellcode_cli/github/models/metrics.py:345-350 | the average is total comments over commented pull requests, 0 with none; participation is reviews over reviews plus self-merges, and 0 when that sum is not positive |
| GithubAccumulators.CollaborationMetrics.constructor | src/wellcode_cli/github/models/metrics.py:284-294 | all counters zero and both maps empty |
| GithubAccumulators.CollaborationMetrics.UpdateFromReview | src/wellcode_cli/github/models/metrics.py:296-319 | update_from_review changes the fields as CollabReviewStep says and keeps the relations |
| GithubAccumulators.CollaborationMetrics.Classify | src/wellcode_cli/github/models/metrics.py:303-312 | the four review-kind counters after classifying one reviewer |
| GithubAccumulators.CollaborationMetrics.UpdateFromComments | src/wellcode_cli/github/models/metrics.py:321-331 | update_from_comments changes the fields as CommentsStep says and keeps the relations |
| GithubAccumulators.CollaborationMetrics.AddComment | src/wellcode_cli/github/models/metrics.py:327-330 | one comment by a user on a pull request: that user's count for the pull request and the pull request's comment count each grow by one, as CountComment says |
| GithubAccumulators.CollaborationMetrics.CountComments | src/wellcode_cli/github/models/metrics.py:323-331 | the loop counts, per comment with an author, one comment for the commenter and one for the pull request |
| GithubOrg.UpdateTeams | src/wellcode_cli/github/models/metrics.py:394-398 | update_teams only adds: both non-empty team names end up in teams_involved, no empty name is added, and nothing else changes |
| GithubOrg.UpdateTeamsIdempotent | src/wellcode_cli/github/models/metrics.py:394-398 | adding the same teams a second time changes nothing |
| GithubOrg.UpdateTimestamp | src/wellcode_cli/github/models/metrics.py:400-406 | update_timestamp changes only last_updated, which is set afterwards |
| GithubOrg.UpdateTimestampIsLatest | src/wellcode_cli/github/models/metrics.py:400-406 | last_updated becomes the later of the old value and the given instant (now when none is given), so it never moves back, and a repeat changes nothing |
| GithubOrg.WithRepository | src/wellcode_cli/github/models/metrics.py:427-434 | get_or_create_repository: the name is then a key; an existing record is kept unchanged whatever default branch is passed; a new one is a fresh record |
| GithubOrg.WithUser | src/wellcode_cli/github/models/metrics.py:436-441 | get_or_create_user: an existing user is kept, team and all; a new user is a fresh record with the given team |
| GithubOrg.WithUserIdempotent | src/wellcode_cli/github/models/metrics.py:436-441 | a second call, with any team, returns the organisation of the first call |
| GithubOrg.WithUserKeeps | src/wellcode_cli/github/models/metrics.py:436-441 | every team member stays a recorded user of that team, and a new user with a non-empty team joins teams[team] |
| GithubOrg.WithRepositoryKeeps | src/wellcode_cli/github/models/metrics.py:427-434 | creating a repository keeps the organisation's relations |
| GithubOrg.RepoOf | src/wellcode_cli/github/models/metrics.py:427-434 | the record get_or_create_repository returns: the existing one, else a new "main" record; it carries the name asked for |
| GithubOrg.RepositoryStats | src/wellcode_cli/github/models/metrics.py:443-467 | get_repository_stats is empty exactly for an unknown repository; otherwise it reports the record's counters, set sizes and the mean merge and review times, each 0 for an empty list |
| GithubOrg.OrganizationMetrics.constructor | src/wellcode_cli/github/models/metrics.py:409-425 | a fresh organisation: empty repositories, users and teams maps and zero counters |
| GithubOrg.OrganizationMetrics.GetOrCreateRepository | src/wellcode_cli/github/models/metrics.py:427-434 | the dictionary of repositories afterwards is the one WithRepository describes |
| GithubOrg.OrganizationMetrics.GetOrCreateUser | src/wellcode_cli/github/models/metrics.py:436-441 | the users and teams dictionaries afterwards are the ones WithUser describes |
| GithubOrg.OrganizationMetrics.GetAllContributors | src/wellcode_cli/github/models/metrics.py:473-478 | the result holds exactly the contributors of some repository |
| GithubPasses.Relevant | src/wellcode_cli/github/github_metrics.py:127-132 | the relevant pull requests are no more than the listed ones, each created inside the inclusive window and, when a user filter is given, authored by that user |
| GithubPasses.RelevantMembers | src/wellcode_cli/github/github_metrics.py:127-132 | a pull request is relevant exactly when it is listed and selected (both directions) |
| GithubPasses.MergedCount | src/wellcode_cli/github/github_metrics.py:142-144 | the merged pull requests are at most all of them |
| GithubPasses.FetchedCommits | src/wellcode_cli/github/github_metrics.py:223-252 | collect_pr_data fetches commits only for merged pull requests: an unmerged one has none |
| GithubPasses.DaysInPeriod | src/wellcode_cli/github/github_metrics.py:349-352 | the period in days is at least one, and exactly the length in days when that is one or more |
| GithubPasses.CommentsPassUsers | src/wellcode_cli/github/github_metrics.py:271-276 | every comment author becomes a user and no user is dropped |
| GithubPasses.ReviewsPassUsers | src/wellcode_cli/github/github_metrics.py:381-386 | every reviewer becomes a user and no user is dropped |
| GithubPasses.PrPassGrows | src/wellcode_cli/github/github_metrics.py:186-215 | process_pr keeps the organisation's relations, files the repository's record under its name, and leaves the pull-request counters, the other repositories and the repository's header alone |
| GithubPasses.PrPassUsers | src/wellcode_cli/github/github_metrics.py:271-276 | after process_pr every commenter and every reviewer is a user |
| GithubPasses.PrsPassGrows | src/wellcode_cli/github/github_metrics.py:163-178 | the same over a whole run of pull requests |
| GithubPasses.ReviewsStepCounts | src/wellcode_cli/github/github_metrics.py:381-391 | the review loop keeps the review relations and counts one performed review and one wait per review with an author, and one comment given per such review with a body |
| GithubPasses.CommentsPassOrg | src/wellcode_cli/github/github_metrics.py:271-288 | the comment loop adds one comment given per comment with an author and feeds those comments to the collaboration accumulator; nothing else at the organisation moves |
| GithubPasses.ReviewsPassOrg | src/wellcode_cli/github/github_metrics.py:381-394 | the review loop applies update_from_review to every review, and its update_collaboration_metrics calls add one self-merge per review with an author while the review kinds stay |
| GithubPasses.MergeTimesIsStep | src/wellcode_cli/github/github_metrics.py:311-345 | the merge's time entries are those of TimeMetrics.update_from_pr, with the cycle time equal to the lead time |
| GithubPasses.PrPassCode | src/wellcode_cli/github/github_metrics.py:255-258 | process_pr's code update is exactly CodeMetrics.update_from_pr at the organisation, and keeps its relations |
| GithubPasses.WaitIsFirstResponse | src/wellcode_cli/github/github_metrics.py:293-305 | with reviews, one wait is recorded: the smallest response time, which is one of them; every review adds its response time |
| GithubPasses.CodePassOrg | src/wellcode_cli/github/github_metrics.py:255-258 | update_code_metrics changes only the code accumulator |
| GithubPasses.CyclesPassOrg | src/wellcode_cli/github/github_metrics.py:372-379 | process_reviews records one review-cycle entry exactly when some review requested changes, and nothing else |
| GithubPasses.WaitPassOrg | src/wellcode_cli/github/github_metrics.py:293-305 | the wait and response-time stage changes only the bottleneck accumulator |
| GithubPasses.TimePassOrg | src/wellcode_cli/github/github_metrics.py:308-367 | update_time_metrics adds one time-to-merge exactly for a merged pull request, changes nothing for an unmerged one, and keeps the time relations |
| GithubPasses.CollabPassOrg | src/wellcode_cli/github/github_metrics.py:397-453 | update_collaboration_metrics adds one self-merge when there are reviews and sets the participation rate to the review kinds over the pull requests created when some were created |
| GithubPasses.PrPassStages | src/wellcode_cli/github/github_metrics.py:186-215 | process_pr is code, received comments, the comment loop, process_reviews, the waits, update_time_metrics and update_collaboration_metrics, in that order |
| GithubPasses.PrPassReview | src/wellcode_cli/github/github_metrics.py:261-305 | process_pr adds one performed review per review with an author, one comment given per author-bearing comment or bodied review, the review comments received, one cycle entry when changes were requested, and keeps the review relations |
| GithubPasses.PrPassTime | src/wellcode_cli/github/github_metrics.py:308-367 | process_pr records one merge more exactly for a merged pull request and keeps the time relations |
| GithubPasses.PrPassCollab | src/wellcode_cli/github/github_metrics.py:397-453 | the team, cross-team and external review counts never move; self-merges grow by one per review with an author plus one; the participation rate is the unchanged kinds over the pull requests created |
| GithubPasses.PrPassComments | src/wellcode_cli/github/github_metrics.py:283-288 | the comments per pull request grow by exactly the comments with an author, and the collaboration relations hold |
| GithubPasses.PrPassBottleneck | src/wellcode_cli/github/github_metrics.py:293-305 | process_pr touches only the waits and response times of the bottleneck accumulator: one wait when there are reviews, one response time per review |
| GithubPasses.PrsPassCounts | src/wellcode_cli/github/github_metrics.py:163-178 | a run of pull requests adds one code sample each and one time-to-merge per merged one |
| GithubPasses.PrsPassCounters | src/wellcode_cli/github/github_metrics.py:163-178 | the passes leave the pull-request counters alone |
| GithubPasses.PrsPassKeeps | src/wellcode_cli/github/github_metrics.py:163-178 | a run of pull requests keeps the review and collaboration relations and the review kinds |
| GithubPasses.PrsPassConcat | src/wellcode_cli/github/github_metrics.py:163-178 | processing the batches one after the other is processing their concatenation |
| GithubPasses.BatchSetupKeeps | src/wellcode_cli/github/github_metrics.py:135-159 | the setup before the batches keeps the organisation's relations |
| GithubPasses.BatchSetupOrg | src/wellcode_cli/github/github_metrics.py:135-150 | the setup files the repository; the organisation's counters grow by the relevant pull requests, their merges and their merges to the default branch; users and accumulators are untouched |
| GithubPasses.BatchSetupRecord | src/wellcode_cli/github/github_metrics.py:135-159 | only the repository's own record changes, to RepoSetup of its old one |
| GithubPasses.RepoSetupFacts | src/wellcode_cli/github/github_metrics.py:135-159 | the record gets the default branch, counts the relevant pull requests and merges, gains their authors as contributors, and its last activity is at least now |
| GithubPasses.RepositoryBatchKeeps | src/wellcode_cli/github/github_metrics.py:113-182 | process_repository_batch keeps the organisation's relations and no other repository's record changes |
| GithubPasses.RepositoryBatchCounts | src/wellcode_cli/github/github_metrics.py:127-178 | each relevant pull request is counted once; the merge counter grows by exactly the merges the time accumulator records; merges to the default branch are among them; every relevant pull request adds a code sample |
| GithubPasses.RepositoryBatchRecord | src/wellcode_cli/github/github_metrics.py:135-159 | the repository's record has the default branch, every relevant author as contributor and a last activity no earlier than now |
| GithubPasses.UpdateCodeMetrics | src/wellcode_cli/github/github_metrics.py:255-258 | the organisation object after update_code_metrics is CodePass of its state before |
| GithubPasses.CountCommentGiven | src/wellcode_cli/github/github_metrics.py:271-288 | one comment of the loop, as CommentPass says, keeping the object valid |
| GithubPasses.UpdateCollaborationMetrics | src/wellcode_cli/github/github_metrics.py:397-453 | the object after update_collaboration_metrics is CollabPass of its state before |
| GithubPasses.CountReview | src/wellcode_cli/github/github_metrics.py:381-394 | one review of the loop, as ReviewPass says |
| GithubPasses.RecordCycles | src/wellcode_cli/github/github_metrics.py:372-379 | the review-cycle entries, as CyclesPass says |
| GithubPasses.ProcessReviews | src/wellcode_cli/github/github_metrics.py:370-394 | process_pr's process_reviews: the cycles, then every review in turn |
| GithubPasses.ReviewWaits | src/wellcode_cli/github/github_metrics.py:293-305 | the waits appended one by one are WaitStep |
| GithubPasses.CountComments | src/wellcode_cli/github/github_metrics.py:271-288 | the comment loop, as CommentsPass says |
| GithubPasses.UpdateReviewMetrics | src/wellcode_cli/github/github_metrics.py:261-305 | update_review_metrics, as ReviewMetricsPass says |
| GithubPasses.RecordMergeTimes | src/wellcode_cli/github/github_metrics.py:313-345 | the merge's entries appended one by one are MergeTimes |
| GithubPasses.UpdateTimeMetrics | src/wellcode_cli/github/github_metrics.py:308-367 | update_time_metrics, as TimePass says |
| GithubPasses.ProcessPr | src/wellcode_cli/github/github_metrics.py:186-219 | process_pr, as PrPass says, keeping the object valid |
| GithubPasses.AddContributors | src/wellcode_cli/github/github_metrics.py:153-156 | the contributor loop adds exactly the authors of the relevant pull requests |
| GithubPasses.SetUpBatch | src/wellcode_cli/github/github_metrics.py:135-159 | the setup before the batches, as BatchSetup says |
| GithubPasses.ProcessBatch | src/wellcode_cli/github/github_metrics.py:164-178 | one batch: process_pr on each of its pull requests in order |
| GithubPasses.ProcessBatches | src/wellcode_cli/github/github_metrics.py:162-178 | the batches of 50 one after the other are the passes over all the relevant pull requests |
| GithubPasses.ProcessRepositoryBatch | src/wellcode_cli/github/github_metrics.py:113-182 | the object after process_repository_batch is RepositoryBatch of its state before |
| GithubPasses.CountReviews | src/wellcode_cli/github/github_metrics.py:381-394 | the loop of process_reviews over every review keeps the object valid and leaves it at ReviewsPass of the reviews, taken in order |
| GithubPasses.CreditOrgComment | src/wellcode_cli/github/github_metrics.py:281-288 | the organisation counts one more comment given and its collaboration accumulator takes update_from_comments of that comment; nothing else changes |
| GithubPasses.CreditCommenter | src/wellcode_cli/github/github_metrics.py:276-286 | the commenter's own record counts one more comment given and takes update_from_comments of that comment; no other record changes |
| GithubPasses.CreditRepoComment | src/wellcode_cli/github/github_metrics.py:280-287 | the repository's record counts one more comment given and takes update_from_comments of that comment; no other record changes |
| GithubPasses.CollabAtRepository | src/wellcode_cli/github/github_metrics.py:400-440 | the repository's collaboration accumulator gains one self-merge when there are reviews and sets its participation rate to its review kinds over its pull requests created when some were; nothing else changes |
| GithubPasses.CreditOrgReview | src/wellcode_cli/github/github_metrics.py:391 | the organisation's review accumulator takes update_from_review of the review; nothing else changes |
| GithubPasses.CreditReviewer | src/wellcode_cli/github/github_metrics.py:385-389 | the reviewer's own record takes update_from_review of the review; no other record changes |
| GithubPasses.CreditRepoReview | src/wellcode_cli/github/github_metrics.py:390 | the repository's review accumulator takes update_from_review of the review; no other record changes |
| GithubPasses.RecordWaits | src/wellcode_cli/github/github_metrics.py:293-305 | the organisation's and the repository's bottleneck accumulators each take the first-review wait and the response times, as WaitPass says; nothing else changes |
| GithubPasses.CountReceived | src/wellcode_cli/github/github_metrics.py:268 | the organisation's review comments received grow by the number of review comments, and nothing else changes |
| GithubPasses.SetTime | src/wellcode_cli/github/github_metrics.py:318-363 | the organisation's time accumulator is replaced by the given one, and nothing else changes |
| GithubPasses.TimeAtRepository | src/wellcode_cli/github/github_metrics.py:311-359 | the repository's time accumulator takes the merge's entries and, for a merge into the default branch with merges to it counted, the deployment frequency over the days; no other record changes |
| GithubPasses.SetUpRepository | src/wellcode_cli/github/github_metrics.py:136-159 | the repository's record after the setup statements is RepoSetup: the default branch set, the relevant pull requests, merges and merges to the default branch added, their authors added as contributors, the timestamp updated |
| GithubPasses.CountBatch | src/wellcode_cli/github/github_metrics.py:139-150 | the organisation's created, merged and merged-to-default counters grow by the relevant pull requests, the merged ones and the merged ones into the default branch; nothing else changes |
| GithubPasses.StoreRepository | src/wellcode_cli/github/github_metrics.py:135 | the repository's record is filed under its name, and nothing else changes |
| GithubPasses.ProcessBatchAt | src/wellcode_cli/github/github_metrics.py:163-178 | one batch relevant[lo..hi], run after the earlier batches, leaves the object where the passes over relevant[..hi] do |
| DictGithub.ReviewWaits | wellcode_cli/github_metrics.py:296-301 | one sample per review, in review order, each the submission minus the creation |
| DictGithub.ReviewerSetIs | wellcode_cli/github_metrics.py:330-333 | the reviewer set holds exactly the logins of reviews with an author other than the pull request's (both directions) |
| DictGithub.EmptyOk | wellcode_cli/github_metrics.py:178-216 | the record get_repo_metrics starts from satisfies the record invariant |
| DictGithub.TimingAppliedCounts | wellcode_cli/github_metrics.py:348-358 | a merged pull request adds one to the merge-time buckets in total, an unmerged one nothing, and no bucket shrinks |
| DictGithub.AppliedOk | wellcode_cli/github_metrics.py:268-358 | an accepted pull request keeps the record invariant: merges at most creations, merges to main at most merges, two time-to-merge samples per lead time, one commit count per created pull request, buckets summing to the merges |
| DictGithub.ProcessPrKeepsOk | wellcode_cli/github_metrics.py:248-362 | process_pr keeps the record invariant |
| DictGithub.SkippedUnchanged | wellcode_cli/github_metrics.py:251-266 | a pull request rejected by the team filter, or created outside [start, end], leaves the record unchanged |
| DictGithub.ProcessPrCounts | wellcode_cli/github_metrics.py:268-278 | an accepted pull request counts once as created, as merged exactly when merged, and as merged to main exactly when merged into "main" or "master" in any letter case |
| DictGithub.MergeSamples | wellcode_cli/github_metrics.py:280-293 | a merged pull request appends its creation-to-merge duration twice to time_to_merge and once to lead_times; an unmerged one appends nothing |
| DictGithub.ReviewersRecorded | wellcode_cli/github_metrics.py:329-340 | reviewers_per_pr is written only when someone other than the author reviewed, and holds exactly those reviewers; a cross-team review is counted exactly when there are at least two |
| DictGithub.ReviewSamples | wellcode_cli/github_metrics.py:296-301 | one time_to_first_review sample per review, appended after the old ones in review order |
| DictGithub.OneBucket | wellcode_cli/github_metrics.py:348-358 | a merge instant increments exactly one bucket: weekends on Saturday and Sunday, business hours on weekdays from 9:00 to before 17:00, after hours otherwise |
| DictGithub.UserFilterOnlyContributions | wellcode_cli/github_metrics.py:307-312 | the user filter decides user_contributions and nothing else |
| DictGithub.ContributionCounted | wellcode_cli/github_metrics.py:307-312 | the author's created count rises by one, and the merged count when merged, exactly when no user filter is set or the author is the filtered user; no other user's entry changes |
| DictGithub.ReviewWaitsOf | wellcode_cli/github_metrics.py:296-301 | the review loop appends ReviewWaits |
| DictGithub.ReviewersOf | wellcode_cli/github_metrics.py:330-333 | the reviewer loop collects ReviewerSet |
| DictGithub.CountPr | wellcode_cli/github_metrics.py:268-293 | the created, merged and merged-to-main counters, comments_per_pr and the time_to_merge and lead_times lists after one accepted pull request, as Applied gives them |
| DictGithub.ContributePr | wellcode_cli/github_metrics.py:307-312 | the user_contributions step |
| DictGithub.CodePr | wellcode_cli/github_metrics.py:303-327 | the code_quality step |
| DictGithub.ReviewPr | wellcode_cli/github_metrics.py:314-358 | the review, collaboration and merge-timing steps |
| DictGithub.ProcessPr | wellcode_cli/github_metrics.py:248-362 | process_pr returns the record ProcessPrDict describes |
| DictGithub.RepoMetricsOk | wellcode_cli/github_metrics.py:218-234 | a repository's record keeps the invariant and counts exactly the accepted pull requests |
| DictGithub.GetRepoMetrics | wellcode_cli/github_metrics.py:218-234 | the pull-request loop of get_repo_metrics returns RepoMetrics |
| DictMerge.Present | wellcode_cli/github_metrics.py:446-448 | when every repository produced a record, their records in list order |
| DictMerge.AddContributions | wellcode_cli/github_metrics.py:456-458 | the user_contributions loop adds every user's counts into the combined defaultdict |
| DictMerge.UnionReviewers | wellcode_cli/github_metrics.py:465-466 | the reviewers_per_pr loop unites every pull request's reviewers into the combined defaultdict |
| DictMerge.MergeOne | wellcode_cli/github_metrics.py:446-491 | one iteration of merge_metrics' loop over the records |
| DictMerge.MergeMetrics | wellcode_cli/github_metrics.py:393-493 | merge_metrics fails (a None entry is indexed) exactly when some repository produced no record; otherwise it is the fold of the records from the all-zero record; an empty list gives the all-zero record |
| DictMerge.FieldsStep | wellcode_cli/github_metrics.py:446-491 | one merging step adds every counter, extends every list, updates every per-PR dictionary, unites reviewer sets and adds contributions |
| DictMerge.MergeSumsCounters | wellcode_cli/github_metrics.py:448-490 | every counter of the merged record is the sum of that counter over the records |
| DictMerge.MergeConcatenatesLists | wellcode_cli/github_metrics.py:452-491 | every extended list of the merged record is the records' lists concatenated in input order |
| DictMerge.MergeDropsCommitCounts | wellcode_cli/github_metrics.py:468-473 | commit_count_per_pr is never extended, so the merged list is empty |
| DictMerge.MergeDictKeys | wellcode_cli/github_metrics.py:451 | comments_per_pr and review_comments_per_pr hold exactly the pull requests numbered in some record |
| DictMerge.MergeLaterWins | wellcode_cli/github_metrics.py:451 | on a pull-request number shared by several records, the merged dictionary keeps the value of the last record that has it |
| DictMerge.MergeUnionsReviewers | wellcode_cli/github_metrics.py:465-466 | a pull request is in the merged reviewer map exactly when some record has it, and its merged reviewers are the union over the records (both directions) |
| DictMerge.MergeAddsContributions | wellcode_cli/github_metrics.py:456-458 | a user is in the merged contributions exactly when some record has them, and their counts are the sums over the records |
| DictMerge.MergeKeepsTotals | wellcode_cli/github_metrics.py:448-453 | merging records that keep the counters' relations keeps them |
| DictMerge.DeploymentFrequency | wellcode_cli/github_metrics.py:564-566 | the frequency, when defined, times the days in the period is the merges to main |
| DictMerge.FrequencyDefined | wellcode_cli/github_metrics.py:564-566 | the division fails exactly when the end lies less than a day before the start; for an ordered window the period is at least one day and the frequency is defined and non-negative |
| DictMerge.AvgCommentsPerPr | wellcode_cli/github_metrics.py:568-571 | the average comments per pull request times the pull requests created is the comment total; 0 with none created |
| DictMerge.AvgCommentsNonNegative | wellcode_cli/github_metrics.py:568-571 | with non-negative comment counts the average is never negative |
| DictMerge.AvgTimeToMergeIsMeanLead | wellcode_cli/github_metrics.py:572-575 | each merge adds its duration twice to time_to_merge, so the average time to merge equals the mean of the lead times |
| LegacyGithubOrg.CallUpdateTimestamp | wellcode_cli/github/models/metrics.py:324-325 | update_timestamp takes no argument: a call with one fails, and a call without sets the last activity to the current instant |
| LegacyGithubOrg.WithRepository | wellcode_cli/github/models/metrics.py:339-342 | get_or_create_repository: the name is then a key; an existing record is kept unchanged; a new one is a fresh record appended to the insertion order; nothing else changes |
| LegacyGithubOrg.WithRepositoryIdempotent | wellcode_cli/github/models/metrics.py:339-342 | a second call returns the record of the first, whatever branch and instant it is given |
| LegacyGithubOrg.WithRepositoryKeeps | wellcode_cli/github/models/metrics.py:339-342 | get_or_create_repository keeps the order listing every repository once and the team relations |
| LegacyGithubOrg.WithUser | wellcode_cli/github/models/metrics.py:344-349 | get_or_create_user: the name is then a key; an existing user is kept unchanged; a new one is a fresh record; only users and teams change |
| LegacyGithubOrg.WithUserIdempotent | wellcode_cli/github/models/metrics.py:344-349 | a second call changes nothing, whatever team it is given |
| LegacyGithubOrg.WithUserKeeps | wellcode_cli/github/models/metrics.py:344-349 | every team member stays a user of that team, and a new user with a non-empty team joins it |
| LegacyGithubOrg.RepositoryStats | wellcode_cli/github/models/metrics.py:351-367 | get_repository_stats is empty exactly for an unknown repository; otherwise the record's counters, contributor and team counts, hotfixes, reverts and last activity, and each average the mean of its list, 0 for an empty one |
| LegacyGithubOrg.ReposOf | wellcode_cli/github/models/metrics.py:382 | the repositories in insertion order |
| LegacyGithubOrg.RollCodeSums | wellcode_cli/github/models/metrics.py:384-390 | the rollup adds every repository's additions, deletions, reverts and hotfixes, and extends changes_per_pr, files_changed and commits_count with theirs, in repository order |
| LegacyGithubOrg.RollReviewSums | wellcode_cli/github/models/metrics.py:393-398 | the rollup adds the review counters, extends time_to_first_review, review_cycles and review_wait_times with every repository's, in order, and leaves the comments received and reviewers per pull request alone |
| LegacyGithubOrg.RollTimeSums | wellcode_cli/github/models/metrics.py:401-405 | the rollup extends time_to_merge, lead_times and cycle_time in repository order, adds each merge-distribution bucket (business hours, after hours, weekends) separately, and leaves the deployment frequency alone |
| LegacyGithubOrg.RollCodeKeeps | wellcode_cli/github/models/metrics.py:384-390 | rolling up consistent code records keeps the organisation's consistent |
| LegacyGithubOrg.RollTimeKeeps | wellcode_cli/github/models/metrics.py:401-405 | rolling up consistent time records keeps the organisation's consistent |
| LegacyGithubOrg.AggregateTwice | wellcode_cli/github/models/metrics.py:380-405 | a second aggregate_metrics adds the repositories' totals once more |
| LegacyGithubOrg.AggregateNotIdempotent | wellcode_cli/github/models/metrics.py:380-405 | with any code additions, the second rollup differs from the first |
| LegacyGithubOrg.AggregateUntouched | wellcode_cli/github/models/metrics.py:380-405 | the rollup leaves collaboration, bottlenecks, users, teams, order and the repositories alone |
| LegacyGithubOrg.LegacyOrganizationMetrics.constructor | wellcode_cli/github/models/metrics.py:327-337 | a fresh organisation has no repository, user or team |
| LegacyGithubOrg.LegacyOrganizationMetrics.GetOrCreateRepository | wellcode_cli/github/models/metrics.py:339-342 | the object after the call is WithRepository of its state before |
| LegacyGithubOrg.LegacyOrganizationMetrics.GetOrCreateUser | wellcode_cli/github/models/metrics.py:344-349 | the object after the call is WithUser of its state before |
| LegacyGithubOrg.LegacyOrganizationMetrics.GetAllContributors | wellcode_cli/github/models/metrics.py:373-378 | a login is returned exactly when some repository lists it as contributor |
| LegacyGithubOrg.LegacyOrganizationMetrics.AggregateMetrics | wellcode_cli/github/models/metrics.py:380-405 | the object after aggregate_metrics is Aggregate of its state before |
| LegacyGithubOrg.LegacyOrganizationMetrics.AddRepository | wellcode_cli/github/models/metrics.py:383-405 | one repository of the rollup |
| LegacyGithubPasses.LastOfIsLatest | wellcode_cli/github/github_metrics.py:142-156 | the repository's last update never decreases, bounds every in-window creation and every merge up to the end of the window, and is the initial value or one of them |
| LegacyGithubPasses.OutOfWindowSkipped | wellcode_cli/github/github_metrics.py:144-146 | a pull request created outside the window does not move the last update |
| LegacyGithubPasses.AsWrittenRaises | wellcode_cli/github/github_metrics.py:163-166 | every call of the as-written process_pr raises |
| LegacyGithubPasses.AsWrittenOnlyMovesLast | wellcode_cli/github/github_metrics.py:142-161 | as written, the pull requests only ever move the repository's last update |
| LegacyGithubPasses.RepositoryAsWrittenEffect | wellcode_cli/github/github_metrics.py:133-161 | the as-written process_repository counts no pull request, touches no user and no organisation accumulator, and leaves the last update at the latest in-window activity, never before the start |
| LegacyGithubPasses.MoveLastKeeps | wellcode_cli/github/github_metrics.py:139 | moving one repository's last update keeps the relations between the records |
| LegacyGithubPasses.ProcessRepositoryAsWritten | wellcode_cli/github/github_metrics.py:133-161 | the organisation object after the as-written process_repository is RepositoryAsWritten of its state before |
| LegacyGithubPasses.StepLast | wellcode_cli/github/github_metrics.py:144-156 | one pull request of the loop moves only the repository's last update, as LastStep says |
| LegacyGithubPasses.Touched | wellcode_cli/github/models/metrics.py:324-325 | update_timestamp with an instant, as the call means it: the later of the old value and the instant (now for None), nothing else changed |
| LegacyGithubPasses.PersonIsWithUser | wellcode_cli/github/github_metrics.py:174 | get_or_create_user with the login alone is WithUser with no team: the teams stay |
| LegacyGithubPasses.TeamBlock | wellcode_cli/github/github_metrics.py:265-278 | the team block counts exactly one of team, cross-team and external: team when both teams are set and equal, cross-team when both are set and differ, external when either is missing |
| LegacyGithubPasses.ReviewKinds | wellcode_cli/github/github_metrics.py:249-278 | a review with an author adds two review kinds (update_from_review and the team block), one without an author one |
| LegacyGithubPasses.FirstCommitDate | wellcode_cli/github/github_metrics.py:282-283 | a first commit date exists exactly when there are commits |
| LegacyGithubPasses.MergeAt | wellcode_cli/github/github_metrics.py:286-295 | a merged pull request adds one cycle time exactly when there is a first commit date |
| LegacyGithubPasses.Insert | wellcode_cli/github/github_metrics.py:220 | inserting into a sequence sorted by submission keeps it sorted and is a permutation with one more element |
| LegacyGithubPasses.SortBySubmission | wellcode_cli/github/github_metrics.py:220 | sorted(reviews, key=submitted_at) is sorted by submission and a permutation of the reviews |
| LegacyGithubPasses.SortedFirst | wellcode_cli/github/github_metrics.py:304 | the first sorted review is the earliest submission, the one min picks |
| LegacyGithubPasses.SortedLast | wellcode_cli/github/github_metrics.py:316 | every review is submitted no later than the last sorted one |
| LegacyGithubPasses.GapsOfSorted | wellcode_cli/github/github_metrics.py:316-320 | the gaps of a sorted sequence are non-negative and add up to its span |
| LegacyGithubPasses.ResponseTimesSpan | wellcode_cli/github/github_metrics.py:316-323 | one response time per review after the first, each non-negative, adding up to the last submission minus the first, which bounds every review |
| LegacyGithubPasses.ReviewerTeams | wellcode_cli/github/github_metrics.py:329-333 | the teams added from reviewers are never "" |
| LegacyGithubPasses.ReviewStepsCounts | wellcode_cli/github/github_metrics.py:230-240 | every authored review is one review performed, and one comment given when it has a body; the cycles stay |
| LegacyGithubPasses.ReviewLevelCounts | wellcode_cli/github/github_metrics.py:201-240 | a level's review accumulator gains a comment given per authored comment and per authored review with a body, a performed review per authored review, and the cycles when there are any |
| LegacyGithubPasses.CommentsStepTypes | wellcode_cli/github/github_metrics.py:215-217 | comments do not count as reviews of any kind |
| LegacyGithubPasses.KindsStepsTypes | wellcode_cli/github/github_metrics.py:230-278 | the review kinds of a level grow by two per authored review and one more per self-review |
| LegacyGithubPasses.KindsStepsTeams | wellcode_cli/github/github_metrics.py:249-278 | the kinds only read the teams: records that give everyone the same team give the same kinds |
| LegacyGithubPasses.UsersPrEffect | wellcode_cli/github/github_metrics.py:173-300 | after process_pr the author has one more pull request created, and merged when it is; nobody else's counters move; everyone keeps their login and team; new commenters and reviewers have no team |
| LegacyGithubPasses.CommentUserGives | wellcode_cli/github/github_metrics.py:202-210 | a comment with an author is one comment given at that person's record and changes nobody else's; one without changes nothing |
| LegacyGithubPasses.ProcessPrCounters | wellcode_cli/github/github_metrics.py:173-186 | process_pr counts the pull request once as created at the repository and its author, as merged when it is, as merged to the default branch when its base is that branch, adds the author to the contributors, and touches no other repository |
| LegacyGithubPasses.CodeCountedTwice | wellcode_cli/github/github_metrics.py:189-191 | process_pr credits the organisation's code accumulator and aggregate_metrics adds the repository's on top, so one pull request's additions and deletions are counted twice |
| LegacyGithubPasses.ProcessPrReviews | wellcode_cli/github/github_metrics.py:198-278 | at the repository and the organisation: comments given, reviews performed, review cycles, and review kinds twice per authored review plus once per self-review |
| LegacyGithubPasses.TimeLevelTimes | wellcode_cli/github/github_metrics.py:280-295 | a merged pull request adds one time to merge and, with commits, one cycle time from the last listed commit; an open one changes nothing |
| LegacyGithubPasses.WaitsTimes | wellcode_cli/github/github_metrics.py:297-323 | the waits are added after the bottleneck update, so an open pull request with reviews has its first wait recorded twice; every review after the first adds a response time |
| LegacyGithubPasses.ProcessPrLevels | wellcode_cli/github/github_metrics.py:189-323 | the organisation's and the repository's accumulators take the same level update, with the teams as recorded before |
| LegacyGithubPasses.ProcessPrTimes | wellcode_cli/github/github_metrics.py:280-323 | the organisation's merge times, cycle times, response times and waits after process_pr |
| LegacyGithubPasses.ProcessPrTeamsAndLast | wellcode_cli/github/github_metrics.py:325-336 | the teams involved gain the author's and every recorded reviewer's non-empty team; the last update becomes the latest of its old value, the creation and the merge (now when open), so it never moves back |
| LegacyGithubPasses.UsersPrTeams | wellcode_cli/github/github_metrics.py:326-333 | the teams read after the reviews are those recorded before the pull request |
| LegacyGithubPasses.ProcessPrKeeps | wellcode_cli/github/github_metrics.py:163-336 | process_pr keeps the relations between the records: order, team rosters, logins and names |
| LegacyGithubPasses.ProcessPrFrame | wellcode_cli/github/github_metrics.py:163-336 | process_pr leaves the order, the teams, the set of repositories and their names as they were |
| LegacyGithubProcess.OpenPr | wellcode_cli/github/github_metrics.py:177-191 | the repository's created, merged and merged-to-default counters, its contributor and the code accumulators |
| LegacyGithubProcess.OpenAuthor | wellcode_cli/github/github_metrics.py:173-199 | the author's first updates are AuthorOpen |
| LegacyGithubProcess.CommenterRecord | wellcode_cli/github/github_metrics.py:207-215 | a comment with an author at the people's records: the commenter is created when new, then counts one comment given and takes update_from_comments of the comment, as CommentUser says |
| LegacyGithubProcess.CommentOne | wellcode_cli/github/github_metrics.py:202-217 | one comment at the commenter, the repository and the organisation |
| LegacyGithubProcess.CommentLoop | wellcode_cli/github/github_metrics.py:202-217 | the comment loop is the comment folds |
| LegacyGithubProcess.CyclesPr | wellcode_cli/github/github_metrics.py:219-227 | the review cycles at the three levels when there are any |
| LegacyGithubProcess.ReviewOne | wellcode_cli/github/github_metrics.py:230-278 | one review at the reviewer, the author, the repository and the organisation |
| LegacyGithubProcess.ReviewCollab | wellcode_cli/github/github_metrics.py:243-278 | a review at a collaboration accumulator: self-merge, update_from_review and the team block |
| LegacyGithubProcess.ReviewerRecords | wellcode_cli/github/github_metrics.py:234-278 | a review at the people's records |
| LegacyGithubProcess.ReviewLoop | wellcode_cli/github/github_metrics.py:230-278 | the review loop is the review folds, with the teams as recorded before the pull request |
| LegacyGithubProcess.MergeTimes | wellcode_cli/github/github_metrics.py:281-295 | the time accumulators of the three levels |
| LegacyGithubProcess.ResponseLoop | wellcode_cli/github/github_metrics.py:316-323 | the response-time loop appends every gap between consecutive sorted reviews to the three lists |
| LegacyGithubProcess.WaitsAll | wellcode_cli/github/github_metrics.py:297-323 | the bottleneck accumulators of the three levels |
| LegacyGithubProcess.ClosePr | wellcode_cli/github/github_metrics.py:280-323 | the merge times and bottlenecks at the repository, the organisation and the author |
| LegacyGithubProcess.TeamsOfPr | wellcode_cli/github/github_metrics.py:325-333 | the teams involved gain the author's team and every recorded reviewer's when non-empty |
| LegacyGithubProcess.OpenPhase | wellcode_cli/github/github_metrics.py:173-227 | process_pr up to the review loop |
| LegacyGithubProcess.ClosePhase | wellcode_cli/github/github_metrics.py:229-323 | process_pr from the review loop on |
| LegacyGithubProcess.ProcessPullRequest | wellcode_cli/github/github_metrics.py:163-336 | the organisation object after process_pr (with update_timestamp taking the instant) is ProcessPr of its state before, and stays valid |
| LegacyGithubProcess.Commit | wellcode_cli/github/github_metrics.py:173-336 | the records process_pr computed are written back into the organisation's repository, user and accumulator fields: the object's state is then exactly that organisation, and valid |
| LegacyGithubProcess.TouchRepo | wellcode_cli/github/github_metrics.py:165-166 | update_timestamp on a record with an instant |
| LegacyGithubRepository.CorrectStepKeeps | wellcode_cli/github/github_metrics.py:142-161 | one listed pull request keeps the relations, the repositories' names, the order and the teams |
| LegacyGithubRepository.CorrectFromKeeps | wellcode_cli/github/github_metrics.py:142-161 | the loop keeps them too |
| LegacyGithubRepository.CorrectStepCounts | wellcode_cli/github/github_metrics.py:144-158 | one step counts the pull request at its repository exactly when created inside the window, as merged when also merged, and no other repository changes |
| LegacyGithubRepository.CorrectFromCounts | wellcode_cli/github/github_metrics.py:142-161 | the loop counts exactly the in-window pull requests and the merged ones among them |
| LegacyGithubRepository.OutOfWindowIgnored | wellcode_cli/github/github_metrics.py:144-146 | a pull request created outside the window leaves the organisation as it was |
| LegacyGithubRepository.RepositoryCorrectedEffect | wellcode_cli/github/github_metrics.py:133-161 | process_repository with the intended process_pr: the repository's record gains exactly the in-window pull requests and merges on top of what it held (nothing for a new one), a new repository is appended to the order, other repositories are untouched and the relations hold |
| LegacyGithubRepository.CorrectOne | wellcode_cli/github/github_metrics.py:143-158 | one pull request of the loop at the organisation object |
| LegacyGithubRepository.ProcessRepository | wellcode_cli/github/github_metrics.py:133-161 | the organisation object after process_repository is RepositoryCorrected of its state before |
| LinearModels.TeamKey | src/wellcode_cli/linear/models/metrics.py:119-120 | an issue is filed under its team key only when that key is present and non-empty |
| LinearModels.ProjectKey | src/wellcode_cli/linear/models/metrics.py:124-127 | an issue is filed under its project only when the project and its key are present and the key is non-empty |
| LinearModels.PriorityKey | src/wellcode_cli/linear/models/metrics.py:114-115 | a priority counts only when present and non-zero |
| LinearModels.AssigneeName | src/wellcode_cli/linear/models/metrics.py:318-319 | an assignee counts only when the name is present and non-empty |
| LinearModels.IssueStepCountsState | src/wellcode_cli/linear/models/metrics.py:84-91 | every issue is created once and counted under exactly its state name ("Unknown" when it has none), so the state distribution adds up to the issues created |
| LinearModels.IssueStepKeepsTally | src/wellcode_cli/linear/models/metrics.py:83-136 | update_from_issue keeps completed plus in progress at most created, bugs and features completed at most created, bugs plus features at most created, every project's counters so ordered, and the state distribution's total |
| LinearModels.IssueStepKeepsCounters | src/wellcode_cli/linear/models/metrics.py:83-136 | update_from_issue keeps the counter relations |
| LinearModels.BugExcludesFeature | src/wellcode_cli/linear/models/metrics.py:104-111 | bugs take precedence: a bug-labelled issue counts as a bug and never as a feature |
| LinearModels.IssueStatsOf | src/wellcode_cli/linear/models/metrics.py:67-81 | get_stats: every rate is 0 with no issues; the completion rate times the issues is 100 times the completed ones; completion plus in-progress and the bug rate lie within 0 and 100 |
| LinearModels.IssueMetrics.constructor | src/wellcode_cli/linear/models/metrics.py:47-65 | a fresh IssueMetrics has every counter 0 and every distribution empty |
| LinearModels.IssueMetrics.UpdateFromIssue | src/wellcode_cli/linear/models/metrics.py:83-136 | the fields after update_from_issue are IssueStep of their values before, and the relations hold |
| LinearModels.IssueMetrics.CountCreated | src/wellcode_cli/linear/models/metrics.py:84-91 | the created counter and the state distribution |
| LinearModels.IssueMetrics.CountStateType | src/wellcode_cli/linear/models/metrics.py:93-96 | the completed / in-progress split on the state type |
| LinearModels.IssueMetrics.CountKind | src/wellcode_cli/linear/models/metrics.py:99-111 | the bug / feature split on the labels, bugs first |
| LinearModels.IssueMetrics.CountKeys | src/wellcode_cli/linear/models/metrics.py:113-136 | the priority, team and project distributions |
| LinearModels.Append | src/wellcode_cli/linear/models/metrics.py:176-181 | appending to a defaultdict(list) entry adds the key, extends its list by the value and leaves the other keys alone |
| LinearModels.Unblocked | src/wellcode_cli/linear/models/metrics.py:197-202 | the inner loop finds the first entry later than the block's start that leaves "blocked" (ignoring case), and none before it qualifies; none found means no entry qualifies |
| LinearModels.BlockedFromBounds | src/wellcode_cli/linear/models/metrics.py:192-205 | the blocked time is never negative, and 0 when nothing ever entered "blocked" |
| LinearModels.CycleStepKeepsTally | src/wellcode_cli/linear/models/metrics.py:166-205 | update_from_issue adds a cycle time exactly for a completed issue, a time to start for a started one, a time in progress for one both started and completed, and a blocked time exactly when positive; the per-team and per-priority samples stay among the cycle times |
| LinearModels.CycleStatsOf | src/wellcode_cli/linear/models/metrics.py:149-161 | get_stats: each of the six averages is 0 for an empty list and the average cycle time times the samples is their sum; triage and review averages are 0 (nothing fills those lists); the blocked average is non-negative; team_cycle_times and priority_cycle_times have exactly the keys of by_team and by_priority, each the safe mean of its list |
| LinearModels.MeansOf | src/wellcode_cli/linear/models/metrics.py:160-161 | the dictionary of safe means: exactly the keys of the input, each entry times its list's length the list's sum, 0 for an empty list |
| LinearModels.CycleStatsMeans | src/wellcode_cli/linear/models/metrics.py:153-159 | every one of the six averages times its list's length is the list's sum, and 0 for an empty list |
| LinearModels.MeanIsMean | src/wellcode_cli/linear/models/metrics.py:150-151 | safe_mean is a mean: times the length it is the sum, 0 for an empty list |
| LinearModels.BlockedMeanNonNegative | src/wellcode_cli/linear/models/metrics.py:159 | the mean blocked time is never negative |
| LinearModels.CycleTimeMetrics.constructor | src/wellcode_cli/linear/models/metrics.py:138-147 | a fresh CycleTimeMetrics has every list and map empty |
| LinearModels.CycleTimeMetrics.UpdateFromIssue | src/wellcode_cli/linear/models/metrics.py:166-205 | the fields after update_from_issue are CycleStep of their values before |
| LinearModels.CycleTimeMetrics.RecordCycleTime | src/wellcode_cli/linear/models/metrics.py:171-181 | the cycle time of a completed issue, filed under its team and priority too |
| LinearModels.CycleTimeMetrics.RecordStart | src/wellcode_cli/linear/models/metrics.py:183-189 | the time to start and the time in progress |
| LinearModels.CycleTimeMetrics.BlockedDuration | src/wellcode_cli/linear/models/metrics.py:192-202 | the nested history loop computes BlockedFrom: each entry into "blocked" runs until the first later exit |
| LinearModels.Classify | src/wellcode_cli/linear/models/metrics.py:253-258 | within 20 percent either way is accurate, more than 20 over is an underestimate, less than -20 an overestimate (each an if-and-only-if) |
| LinearModels.EstimationStepKeepsTally | src/wellcode_cli/linear/models/metrics.py:242-270 | no estimate or no positive actual time changes nothing; otherwise one estimate more, and the three classes still partition the estimates, overall and per team |
| LinearModels.TeamAccuracyOf | src/wellcode_cli/linear/models/metrics.py:234-239 | one team's entry of team_accuracy: the accuracy rate is the accurate share of the team's estimates in percent, 0 for no estimates and within 0 and 100; the average variance is the exact mean, 0 for none |
| LinearModels.EstimationStatsOf | src/wellcode_cli/linear/models/metrics.py:222-240 | get_stats: the rates are 0 with nothing estimated, otherwise add up to 100, and the accuracy rate lies within 0 and 100; the average variance is the exact mean; team_accuracy has exactly the teams seen, each with its own rate and mean |
| LinearModels.RealMean | src/wellcode_cli/linear/models/metrics.py:223-224 | safe_mean: the mean times the length is the sum, 0 for the empty list |
| LinearModels.EstimationMetrics.constructor | src/wellcode_cli/linear/models/metrics.py:207-220 | a fresh EstimationMetrics has every counter 0 |
| LinearModels.EstimationMetrics.UpdateFromIssue | src/wellcode_cli/linear/models/metrics.py:242-270 | the fields after update_from_issue are EstimationStep of their values before |
| LinearModels.TeamStepKeepsTally | src/wellcode_cli/linear/models/metrics.py:306-336 | TeamMetrics.update_from_issue keeps completed at most created for issues, bugs and every project; a project key seen for the first time gets counters with one issue |
| LinearModels.TeamStatsOf | src/wellcode_cli/linear/models/metrics.py:284-304 | get_stats: members counted once each; completion and resolution rates within 0 and 100, and 0 with nothing created |
| LinearModels.TeamMetrics.constructor | src/wellcode_cli/linear/models/metrics.py:272-282 | a fresh TeamMetrics has its name and every counter 0 |
| LinearModels.TeamMetrics.UpdateFromIssue | src/wellcode_cli/linear/models/metrics.py:306-336 | the fields after update_from_issue are TeamStep of their values before |
| LinearModels.TeamMetrics.CountIssue | src/wellcode_cli/linear/models/metrics.py:307-316 | the issue and bug counters, completed ones included |
| LinearModels.TeamMetrics.CountMember | src/wellcode_cli/linear/models/metrics.py:318-320 | the assignee joins the members |
| LinearModels.TeamMetrics.CountProject | src/wellcode_cli/linear/models/metrics.py:322-336 | the per-project counters, created on first sight |
| LinearModels.ProjectStepKeepsState | src/wellcode_cli/linear/models/metrics.py:371-391 | ProjectMetrics.update_from_issue counts one more issue and keeps completed, bugs plus features at most the total |
| LinearModels.ProjectCompletionRate | src/wellcode_cli/linear/models/metrics.py:354 | the completion rate lies within 0 and 100, and is 0 with no issues |
| LinearModels.ProjectMetrics.constructor | src/wellcode_cli/linear/models/metrics.py:338-351 | a fresh ProjectMetrics has its key and name and every counter 0 |
| LinearModels.ProjectMetrics.UpdateFromIssue | src/wellcode_cli/linear/models/metrics.py:371-391 | the fields after update_from_issue are ProjectStep of their values before |
| LinearCalendar.NextNine | src/wellcode_cli/linear/linear_metrics.py:244 | the loop always moves forward, to a 09:00 |
| LinearCalendar.DayCreditBounds | src/wellcode_cli/linear/linear_metrics.py:233-242 | one day credits between 0 and 8 hours, nothing on Saturday or Sunday, and nothing when the end comes before that day's 09:00 |
| LinearCalendar.WorkSecondsBounds | src/wellcode_cli/linear/linear_metrics.py:229-246 | the total lies between 0 and 8 hours per loop iteration |
| LinearCalendar.IgnoresStartTimeOfDay | src/wellcode_cli/linear/linear_metrics.py:238-244 | two starts on the same day give the same total: the start's time of day is ignored |
| LinearCalendar.WeekendWindowIsFree | src/wellcode_cli/linear/linear_metrics.py:233 | a window from a Saturday that ends before the Monday counts nothing |
| LinearCalendar.CalculateWorkHours | src/wellcode_cli/linear/linear_metrics.py:218-246 | calculate_work_hours: 0 when an endpoint is missing or the end is not after the start; otherwise the loop's total of per-day credits, never negative |
| LinearCalendar.WorkPointsSplit | src/wellcode_cli/linear/linear_metrics.py:263-269 | counting points over two stretches split on a whole number of days adds up |
| LinearCalendar.WorkPointsPrefix | src/wellcode_cli/linear/linear_metrics.py:263-269 | the first k days' points depend only on the start's weekday |
| LinearCalendar.WorkPointsWeek | src/wellcode_cli/linear/linear_metrics.py:263-269 | a full week from any instant holds exactly five points |
| LinearCalendar.FiveOfSeven | src/wellcode_cli/linear/linear_metrics.py:264 | seven consecutive days starting on any weekday hold five of Monday to Friday |
| LinearCalendar.WorkPointsWeeks | src/wellcode_cli/linear/linear_metrics.py:263-269 | k whole weeks from any instant hold exactly 5k points |
| LinearCalendar.CalculateWorkPoints | src/wellcode_cli/linear/linear_metrics.py:248-271 | calculate_work_points: 0 when an endpoint is missing; otherwise one point per 24-hour step before the end that lands on a weekday |
| LinearCalendar.WorkingDatesCountsSet | src/wellcode_cli/linear/linear_metrics.py:288-291 | the date loop counts exactly the Monday-to-Friday dates of the inclusive range |
| LinearCalendar.CalculateWorkingDays | src/wellcode_cli/linear/linear_metrics.py:273-293 | calculate_working_days: 0 when an endpoint is missing; otherwise the number of Monday-to-Friday dates from the start's date to the end's date inclusive, 0 when the end's date is earlier |
| LinearCalendar.PointsToExpectedHours | src/wellcode_cli/linear/linear_metrics.py:295-309 | the story-point table: 0 exactly for values outside it, never negative, 3 points a day of 8 hours and 5 points a week of 40 |
| LinearCalendar.PointsToExpectedHoursMonotone | src/wellcode_cli/linear/linear_metrics.py:300-307 | within the table more points never mean fewer hours |
| LinearReport.LabelsStepConcat | src/wellcode_cli/linear/linear_metrics.py:130-136 | counting labels in two runs is counting them in one |
| LinearReport.LabelsStepCounts | src/wellcode_cli/linear/linear_metrics.py:131-136 | each non-empty label name is counted once per occurrence, and the empty name never |
| LinearReport.IssuesTallyOk | src/wellcode_cli/linear/linear_metrics.py:90-92 | after the fold, issues created is the number of issues, the state distribution adds up to it, and the counter relations hold |
| LinearReport.TeamsOfKeys | src/wellcode_cli/linear/linear_metrics.py:108-113 | the fold keeps exactly one team entry per distinct team key seen (an absent key among them), each with ordered counters |
| LinearReport.LabelCountsAreOccurrences | src/wellcode_cli/linear/linear_metrics.py:129-136 | label_counts of a non-empty name is the number of its occurrences across all issues' labels |
| LinearReport.LinearOrgMetrics.constructor | src/wellcode_cli/linear/models/metrics.py:394-401 | LinearOrgMetrics(name=...) starts with its name, empty accumulators and no team, project or label |
| LinearReport.LinearOrgMetrics.UpdateTeam | src/wellcode_cli/linear/linear_metrics.py:108-113 | an issue with a team is filed under its key, with empty counters the first time the key is seen |
| LinearReport.LinearOrgMetrics.UpdateProject | src/wellcode_cli/linear/linear_metrics.py:116-127 | an issue with a project is filed under its slug, the project's name fixed when first seen |
| LinearReport.LinearOrgMetrics.CountLabels | src/wellcode_cli/linear/linear_metrics.py:130-136 | the label loop counts each non-empty name |
| LinearReport.LinearOrgMetrics.UpdateAccumulators | src/wellcode_cli/linear/linear_metrics.py:92-105 | the issue, cycle-time and estimation accumulators take the issue, the estimation with its work time (0 unless both endpoints are known) |
| LinearReport.LinearOrgMetrics.ProcessIssue | src/wellcode_cli/linear/linear_metrics.py:90-136 | one iteration of the fold: each accumulator, the team, the project and the labels take one step |
| LinearReport.LinearOrgMetrics.AggregateMetrics | src/wellcode_cli/linear/models/metrics.py:413-419 | aggregate_metrics raises exactly when some team has a project (the mean of an empty list), and otherwise changes nothing |
| LinearReport.FoldNext | src/wellcode_cli/linear/linear_metrics.py:90 | the fold over one issue more is one step past the fold before it |
| LinearReport.GetLinearMetrics | src/wellcode_cli/linear/linear_metrics.py:18-139 | the fold of get_linear_metrics over the fetched issues, then aggregate_metrics: every accumulator is the fold of its step over the issues, and the aggregation raises exactly when some team has a project |
| LinearReport.FoldIssues | src/wellcode_cli/linear/linear_metrics.py:90-136 | the loop over the issues leaves every accumulator at the fold of its step |
| LinearReport.EligibleIssues | src/wellcode_cli/linear/linear_metrics.py:146 | only issues with a non-zero estimate, a start and a completion, no more of them than given |
| LinearReport.AccuracyCounts | src/wellcode_cli/linear/linear_metrics.py:165-189 | the three classes partition the recorded variances, of which there are at most as many as eligible issues |
| LinearReport.AccountIssue | src/wellcode_cli/linear/linear_metrics.py:166-189 | the loop body: an issue with no work time is skipped, otherwise its variance against the raw estimate is recorded and classified |
| LinearReport.CalculateEstimationAccuracy | src/wellcode_cli/linear/linear_metrics.py:144-194 | calculate_estimation_accuracy: total_estimated counts the eligible issues, and the three classes add up to the recorded variances, at most the total |
| Commands.KeyIndex | src/wellcode_cli/commands/commands.py:248 | the position of the first mapping entry whose key is exactly the token, or none when no entry has it |
| Commands.Lookup | src/wellcode_cli/commands/commands.py:248-249 | `cmd in cmd_mapping` and `cmd_mapping[cmd]`: found exactly when some entry has the key, and then the value is that entry's |
| Commands.FirstContained | src/wellcode_cli/commands/commands.py:252-253 | the first entry, in the mapping's order, whose key occurs in the lowered input, none before it; none found means no key occurs |
| Commands.ParseTimeRange | src/wellcode_cli/commands/commands.py:195-216 | parse_time_range: a window exactly when the lowered input mentions "yesterday", "last week" or "this week", always of whole UTC days and non-empty |
| Commands.TimeRangeWindows | src/wellcode_cli/commands/commands.py:200-213 | "yesterday" is the one day before today, "last week" the seven days before today, "this week" from Monday midnight to the end of today, in that order of precedence |
| Commands.ThisWeekWindow | src/wellcode_cli/commands/commands.py:210-213 | the "this week" window starts on a Monday midnight at most seven days back and ends at the next midnight |
| Commands.ReviewArgs | src/wellcode_cli/commands/commands.py:254-258 | for a REVIEW key, at most one argument: the first word after the key, non-empty and without spaces; none when the key does not occur |
| Commands.ScanArgs | src/wellcode_cli/commands/commands.py:252-258 | the substring scan gives arguments only for a REVIEW key, and at most one |
| Commands.Tokens | src/wellcode_cli/commands/commands.py:238 | `strip().split()` is empty exactly for blank input |
| Commands.ParseCommand | src/wellcode_cli/commands/commands.py:219-261 | parse_command: the time range comes from the whole input; blank input is CHAT with the raw input; an exact first-token key gives its type and the other tokens; otherwise the first key found in the lowered input; CHAT exactly when neither matched or the input is blank |
| Commands.MappingHasNoChat | src/wellcode_cli/commands/commands.py:222-236 | no key of the mapping gives CHAT |
| LegacyCommands.ScanArgs | wellcode_cli/commands.py:242-250 | the substring scan gives arguments only for the "review" key, and at most one |
| LegacyCommands.ParseCommand | wellcode_cli/commands.py:180-254 | parse_command: blank input is HELP with no arguments and no range; otherwise the time range comes from the whole input, an exact first-token key gives its type and the other tokens, then the first key found in the lowered input, and HELP is the fallback |
| LegacyCommands.FlagShortcutRedundant | wellcode_cli/commands.py:205-209 | the `--` short-cut returns exactly what the general path returns |
| LegacyLinear.PriorityBucket | wellcode_cli/linear_metrics.py:115-125 | priorities 0 to 4 go to No Priority, Urgent, High, Medium and Low, and every other value, or none, to no bucket |
| LegacyLinear.CycleSample | wellcode_cli/linear_metrics.py:96-103 | a cycle time is recorded only for a completed issue, and only when positive |
| LegacyLinear.FoldStates | wellcode_cli/linear_metrics.py:90-93 | the state breakdown adds up to the number of issues |
| LegacyLinear.FoldExclusive | wellcode_cli/linear_metrics.py:95-105 | completed and in progress are exclusive, so together at most the issues; cycle times are at most the completed issues, each positive |
| LegacyLinear.FoldUsers | wellcode_cli/linear_metrics.py:107-113 | no assignee has more completed issues than issues |
| LegacyLinear.FoldPriorities | wellcode_cli/linear_metrics.py:80-86 | the five priority buckets are always present, never negative, and add up to at most the number of issues |
| LegacyLinear.PrioritiesStep | wellcode_cli/linear_metrics.py:115-125 | one issue's priority keeps the five buckets and adds at most one |
| LegacyLinear.AverageIsMean | wellcode_cli/linear_metrics.py:127-133 | average_cycle_time is the mean of the recorded cycle times, 0 without any, and never negative, so the guard at line 130 never fires |
| LegacyLinear.ProcessNode | wellcode_cli/linear_metrics.py:90-125 | the loop body on one issue node is one Step |
| LegacyLinear.CountState | wellcode_cli/linear_metrics.py:92-93 | the state breakdown counts the issue under its state name, "Unknown" without one |
| LegacyLinear.CountPriority | wellcode_cli/linear_metrics.py:115-125 | the priority breakdown counts the issue in its bucket, if any |
| LegacyLinear.CountCompletion | wellcode_cli/linear_metrics.py:96-105 | the completed / in-progress split and the cycle time of a completed issue |
| LegacyLinear.CountAssignee | wellcode_cli/linear_metrics.py:107-113 | the assignee's contribution, started at zero on first sight; completed counts when a completion date is present |
| LegacyLinear.GetLinearMetrics | wellcode_cli/linear_metrics.py:74-135 | the dictionary get_linear_metrics returns for the fetched nodes: issues_created is their number and the rest is the fold, with the guarded average |
| Retry.Pow2 | src/wellcode_cli/github/decorators.py:46 | `2 ** n` is at least 1 |
| Retry.InvocationsBounded | src/wellcode_cli/github/decorators.py:13-14 | the wrapped call is invoked at most `retries` times, with at most one sleep per invocation |
| Retry.NoneOnlyWithoutRetries | src/wellcode_cli/github/decorators.py:60 | with a positive number of attempts the wrapper always returns a value or raises, never None |
| Retry.FirstSuccessReturned | src/wellcode_cli/github/decorators.py:15-16 | after retryable failures, the first success is returned at once, after exactly that many invocations |
| Retry.FatalRaisedAtOnce | src/wellcode_cli/github/decorators.py:17-21 | a 401 or an error that is not a GitHub error is raised at its first occurrence, with no retry and no sleep of its own |
| Retry.ExhaustedRaisesLast | src/wellcode_cli/github/decorators.py:50-55 | when every attempt fails with a retryable error, the last error is raised after `retries` invocations; a final 403 sleeps first, another status does not |
| Retry.HandleGithubErrors | src/wellcode_cli/github/decorators.py:9-62 | the loop of `wrapper` performs the run Wrapper describes: at most `retries` invocations, and None exactly when `retries` is not positive |
| Retry.RateLimitSleepPastReset | src/wellcode_cli/github/decorators.py:31-43 | with the quota exhausted the wrapper sleeps at least one second and past the reset instant |
| Retry.BackoffDoubles | src/wellcode_cli/github/decorators.py:46 | the backoff starts at `delay` and doubles with each failure |
| Retry.SleepAfterFailure | src/wellcode_cli/github/decorators.py:41-59 | after a retryable failure a 403 always sleeps (until the reset, or with backoff), another status backs off unless it was the last attempt |
| DateTimes.EnsureDatetime | src/wellcode_cli/github/utils.py:4-25 | None stays None and every other result is timezone-aware; an aware datetime is unchanged, a naive one is tagged UTC with its wall clock kept, a date becomes its midnight in UTC |
| DateTimes.EnsureDatetimeIdempotent | src/wellcode_cli/github/utils.py:10-13 | normalising twice is normalising once |
| DateTimes.EnsureDatetimeKeepsWallClock | src/wellcode_cli/github/utils.py:11-12 | tagging a naive datetime as UTC does not shift it: its instant, and its hour, are its wall clock's |
| DateTimes.IsWithinRange | wellcode_cli/github_metrics.py:378-388 | is_within_range: false when any argument is None, otherwise start at most the date at most the end, compared as instants |
| DateTimes.RangeInclusive | wellcode_cli/github_metrics.py:386 | the range is inclusive at both ends |
| DateTimes.RangeDependsOnInstantOnly | wellcode_cli/github_metrics.py:386 | two encodings of one instant are interchangeable as the date checked |
| Runner.Spaces | src/wellcode_cli/games/cyberpunk_runner.py:138 | `' ' * n`: n spaces, none when n is not positive |
| Runner.CenterTextPads | src/wellcode_cli/games/cyberpunk_runner.py:127-138 | _center_text pads text no longer than the width to the width: the visible text (coloured and reset when a colour is given) after `(width - len(text)) // 2` spaces, the right padding equal to the left or one longer, the colour codes not counted |
| Runner.CenterTextLong | src/wellcode_cli/games/cyberpunk_runner.py:133-138 | text longer than the width comes back unpadded |
| Runner.PressKeepsJumps | src/wellcode_cli/games/cyberpunk_runner.py:162-166 | the space key starts a jump only when one is left, using it up, and keeps the jumps left within 0 and 2 |
| Runner.HandleJumpKeeps | src/wellcode_cli/games/cyberpunk_runner.py:242-259 | _handle_jump keeps the player at or above the ground and inside the arc; the jumps are restored only on the ground, otherwise unchanged |
| Runner.Iterate | src/wellcode_cli/games/cyberpunk_runner.py:242-259 | repeated _handle_jump keeps the jump state well formed |
| Runner.SingleJumpLands | src/wellcode_cli/games/cyberpunk_runner.py:56-58 | a single jump from the ground rises three rows, stays in the air five ticks, lands at the sixth and has both jumps again at the seventh |
| Runner.CollectEffect | src/wellcode_cli/games/cyberpunk_runner.py:347-358 | a shield turns on for 50 ticks with the shield glyph, points add 50, an extra life only below five lives; nothing else changes, and neither score nor lives drop |
| Runner.TickShieldOk | src/wellcode_cli/games/cyberpunk_runner.py:267-272 | the shield tick keeps at most 50 ticks left and some left while the shield is on, and changes neither score nor lives |
| Runner.ShieldRunsOut | src/wellcode_cli/games/cyberpunk_runner.py:268-272 | a shield with d ticks left has d - n after n ticks and is on exactly while n < d |
| Runner.ShieldLasts | src/wellcode_cli/games/cyberpunk_runner.py:349-351 | a shield collected in a tick is on for that tick and the 48 after it, and off after 49 |
| Runner.PowerUpsKept | src/wellcode_cli/games/cyberpunk_runner.py:331-345 | _update_power_ups keeps exactly the moved power-ups out of reach and not past the left edge, never more than there were |
| Runner.PowerUpsVitals | src/wellcode_cli/games/cyberpunk_runner.py:334-341 | collecting during the pass never lowers score or lives nor lifts lives above five, and keeps the shield bookkeeping |
| Runner.Shift | src/wellcode_cli/games/cyberpunk_runner.py:275-276 | every obstacle moves one column left, on its row |
| Runner.OnScreenIs | src/wellcode_cli/games/cyberpunk_runner.py:282 | the filter keeps exactly the obstacles right of column 0, never more than given |
| Runner.ObstaclesBounded | src/wellcode_cli/games/cyberpunk_runner.py:275-286 | one column less, the filter and the spawn (only below two) leave at most two obstacles, all right of column 0 |
| Runner.HitsIsSameCell | src/wellcode_cli/games/cyberpunk_runner.py:291-292 | on integer cells the collision test is the player's own cell |
| Runner.Collision | src/wellcode_cli/games/cyberpunk_runner.py:288-296 | an unshielded player touching any obstacle loses exactly one life and the game is over once none is left; a shielded one loses nothing; nothing else changes |
| Runner.Scroll | src/wellcode_cli/games/cyberpunk_runner.py:309-319 | every background row shifts one column left and takes the drawn character at the right |
| Runner.ScrollKeepsSky | src/wellcode_cli/games/cyberpunk_runner.py:309-319 | scrolling keeps each row's width and only stars and spaces |
| Runner.Sky | src/wellcode_cli/games/cyberpunk_runner.py:298-307 | _init_background: one row per draw row, each cell the drawn character |
| Runner.SkyIsOk | src/wellcode_cli/games/cyberpunk_runner.py:300-307 | height - 1 rows of width cells, only stars and spaces |
| Runner.PlayTickKeeps | src/wellcode_cli/games/cyberpunk_runner.py:261-296 | a tick of _update_game keeps at most two obstacles, at most five lives, the shield bookkeeping and every power-up on a row randint can draw, and never lowers the score |
| Runner.CyberpunkRunner.constructor | src/wellcode_cli/games/cyberpunk_runner.py:11-61 | __init__ then reset_game: running, score 0, three lives, the plain glyph, no obstacles or power-ups, both jumps; the size passed in is overwritten |
| Runner.CyberpunkRunner.ResetGame | src/wellcode_cli/games/cyberpunk_runner.py:63-79 | reset_game: a 30 by 6 board, the player on the ground in column 5, nothing on it, score 0, three lives, no shield, both jumps, a fresh background |
| Runner.CyberpunkRunner.ResetBoard | src/wellcode_cli/games/cyberpunk_runner.py:65-69 | the board part of reset_game |
| Runner.CyberpunkRunner.ResetPlay | src/wellcode_cli/games/cyberpunk_runner.py:70-78 | the score, life, jump and shield part of reset_game |
| Runner.CyberpunkRunner.InitBackground | src/wellcode_cli/games/cyberpunk_runner.py:298-307 | the nested loop builds the background Sky describes |
| Runner.CyberpunkRunner.PressJump | src/wellcode_cli/games/cyberpunk_runner.py:162-166 | the space key's effect on the jump state |
| Runner.CyberpunkRunner.HandleJump | src/wellcode_cli/games/cyberpunk_runner.py:242-259 | _handle_jump's effect on the jump state |
| Runner.CyberpunkRunner.CollectPowerUp | src/wellcode_cli/games/cyberpunk_runner.py:347-358 | _collect_power_up's effect on the score, lives and shield |
| Runner.CyberpunkRunner.UpdatePowerUps | src/wellcode_cli/games/cyberpunk_runner.py:331-345 | the loop over a copy of the power-ups: what stays and what is collected |
| Runner.CyberpunkRunner.SpawnPowerUp | src/wellcode_cli/games/cyberpunk_runner.py:321-329 | a drawn power-up appears at the right edge on the drawn row |
| Runner.CyberpunkRunner.UpdateBackground | src/wellcode_cli/games/cyberpunk_runner.py:309-319 | _update_background scrolls the background |
| Runner.CyberpunkRunner.UpdateShield | src/wellcode_cli/games/cyberpunk_runner.py:267-272 | the shield tick |
| Runner.CyberpunkRunner.CleanAndSpawnObstacles | src/wellcode_cli/games/cyberpunk_runner.py:281-286 | the obstacle filter and spawn |
| Runner.CyberpunkRunner.ShiftObstacles | src/wellcode_cli/games/cyberpunk_runner.py:275-279 | every obstacle one column left, ten points for each one that just passed the player |
| Runner.CyberpunkRunner.CheckCollisions | src/wellcode_cli/games/cyberpunk_runner.py:288-296 | the collision loop's effect on lives and game_over |
| Runner.CyberpunkRunner.PowerUpsHalf | src/wellcode_cli/games/cyberpunk_runner.py:264-272 | the power-up half of _update_game: the power-ups moved and collected, the drawn one spawned and the shield ticked, as PowerUpsTick says |
| Runner.CyberpunkRunner.ObstaclesHalf | src/wellcode_cli/games/cyberpunk_runner.py:274-296 | the obstacle half of _update_game: every obstacle moved left with ten points per one just passed, the off-screen ones dropped, the spawn, then the collision test, as ObstaclesTick says |
| Runner.CyberpunkRunner.UpdateGame | src/wellcode_cli/games/cyberpunk_runner.py:261-296 | _update_game in the source's order: the tick PlayTick describes, and the background scrolled |
| Runner.CyberpunkRunner.Round | src/wellcode_cli/games/cyberpunk_runner.py:146-171 | one round of the game loop: it stops exactly on 'q', and quitting changes nothing; after game over only 'r' changes anything, and it gives the fresh game reset_game sets up; while playing, the background scrolls, the obstacles, power-ups and vitals take one PlayTick, and the jump state takes one _handle_jump step after the space key's Press; the score never drops and the invariant holds |
| Runner.CyberpunkRunner.PlayRound | src/wellcode_cli/games/cyberpunk_runner.py:170-171 | _update_game then _handle_jump: the background scrolls by the drawn column, the obstacles, power-ups and vitals take one PlayTick at the player's old position, and the jump state takes one HandleJumpStep; the invariant holds and the score never drops |
| SplitMetrics.TopOf | src/wellcode_cli/split_metrics.py:110-124 | top_splits: one entry for each of the first five splits (all of them when fewer), in order |
| SplitMetrics.GetSplitMetrics | src/wellcode_cli/split_metrics.py:24-154 | get_split_metrics: the loop over the listed splits and the error paths produce the report SplitReport describes |
| SplitMetrics.MissingKeyReport | src/wellcode_cli/split_metrics.py:36-47 | without an API key the result is the all-zero record with exactly the one "not set" error |
| SplitMetrics.FailureReports | src/wellcode_cli/split_metrics.py:128-154 | a timeout, a fetch failure or an initialisation failure gives the all-zero record with exactly one error; a listing gives no error |
| SplitMetrics.ActiveCounted | src/wellcode_cli/split_metrics.py:76-78 | the active splits are the ones not killed: all of them exactly when none is killed, none exactly when all are |
| SplitMetrics.ChangedListed | src/wellcode_cli/split_metrics.py:96-107 | a split is listed as changed exactly when its change number lies within the window, both ends included, with its name, status and treatments |
| SplitMetrics.ChangedCounted | src/wellcode_cli/split_metrics.py:97-107 | one changed entry per split inside the window, so never more than the splits |
| SplitMetrics.ChangedInOrder | src/wellcode_cli/split_metrics.py:76-107 | the changed list keeps the input order |
| SplitMetrics.NoTrafficListed | src/wellcode_cli/split_metrics.py:84-94 | every killed split and every split without a traffic type is listed as without traffic, and nothing else is |
| SplitMetrics.KilledHasNoTraffic | src/wellcode_cli/split_metrics.py:85-94 | a killed split is always listed as without traffic, with status killed |
| SplitMetrics.RecentCounted | src/wellcode_cli/split_metrics.py:80-82 | the recently modified count is the splits changed at or after the week bound: never more than the splits, all of them when all are recent, none when none is |
| SplitMetrics.ReadyReport | src/wellcode_cli/split_metrics.py:67-126 | a listing gives total_splits its length, splits_by_environment the one "production" entry with that total, active at most total, at most five top splits from the front (five when there are that many), and no treatments served |
| Text.Lower | src/wellcode_cli/commands/commands.py:244 | `str.lower` on ASCII text: each letter A to Z lowered, every other character kept, so the length is kept |
| Text.LowerIdempotent | src/wellcode_cli/commands/commands.py:253 | lowering twice is lowering once, and leaves no ASCII capital |
| Text.Strip | src/wellcode_cli/commands/commands.py:238 | `str.strip()`: no Python whitespace (the full str.isspace set, including U+00A0, U+0085 and U+001C to U+001F) at either end, empty exactly for blank input |
| Text.Words | src/wellcode_cli/commands/commands.py:238 | `str.split()`: non-empty words without Python whitespace |
| Text.WordsAfterWord | src/wellcode_cli/commands/commands.py:238 | a word followed by any whitespace character is split off as the first word |
| Text.NoBreakSpaceSeparates | src/wellcode_cli/commands/commands.py:238 | two words joined by a no-break space are split into those two words |
| Text.WordsEmpty | src/wellcode_cli/commands/commands.py:241-242 | `split()` is empty exactly for blank input |
| Text.IndexOf | src/wellcode_cli/commands/commands.py:253 | `sub in s`: the first position where sub occurs, none before; none found means it occurs nowhere |
| Text.SplitOn | src/wellcode_cli/commands/commands.py:255 | `str.split(key)`: at least one piece, more than one exactly when the key occurs |
| Text.JoinSplit | src/wellcode_cli/commands/commands.py:255 | joining the pieces with the key gives the input back |
| Text.SplitPiecesFree | src/wellcode_cli/commands/commands.py:255 | no piece contains the key |

## Left out

- Durations: the source keeps float hours (or minutes for review waits). The model keeps whole seconds, with thresholds scaled to match. Float rounding is not modelled.
- Statistics: `statistics.median`, `statistics.quantiles` and the p50/p95 and median figures of the get_stats methods are left out. Means are exact `real` values, 0 for an empty list.
- BottleneckMetrics.get_stats: the sorted "top bottleneck users" ranking is left out (src/wellcode_cli/github/models/metrics.py:113).
- Aliasing: records are values. process_pr's statements act on local copies of the organisation's records, which are written back once at the end. Two names for one accumulator object are not modelled.
- Concurrency: thread pools, the semaphore, `as_completed`, `safe_github_call`, atexit cleanup and the game's locks are left out. Batches, pull requests and repositories are processed sequentially, in the order the source submits them.
- Exceptions inside the batch loop: a pull request whose processing fails is logged and its siblings go on in the source. The model has no failing pull request, so every one is processed.
- Network I/O: collect_pr_data's fetches of commits, reviews and comments are inputs. So are GitHub listing, Linear GraphQL pagination and the Split SDK calls. Fetching is not part of this model.
- The pull-request author is always a login. PyGithub always supplies a user, so the `'unknown'` default is not modelled.
- Pending reviews without a submission time are not modelled. Every review carries submittedAt.
- update_collaboration_metrics would call the non-existent `update_from_reviews` (src/wellcode_cli/github/github_metrics.py:411). This is never reached: the `hasattr(..., "team")` guards (src/wellcode_cli/github/github_metrics.py:155, 405) are false for PyGithub users, so the model takes the guards as false.
- update_bottleneck_metrics (src/wellcode_cli/github/github_metrics.py:487-490) is never called, so it is not modelled.
- get_team_members (src/wellcode_cli/github/github_metrics.py:460-484) is network I/O.
- ReviewMetrics.update_from_review's `org_metrics` argument is never passed by the callers, so that branch is not modelled.
- Dictionary report (wellcode_cli/github_metrics.py):
  - median_lead_time (a float median) is left out.
  - The 403 retry and `except` paths of get_repo_metrics (lines 175-246) are left out.
  - A None record from get_repo_metrics makes merge_metrics fail with a TypeError; the model answers None.
  - commit_count_per_pr is not merged, as in the source (DictMerge.MergeDropsCommitCounts). In comments_per_pr the later record wins.
  - The Anthropic summary calls (lines 92-168) are left out.
- Linear:
  - LinearOrgMetrics keeps its per-team and per-project accumulators as value maps rather than objects.
  - LinearOrgMetrics.aggregate_metrics takes `statistics.mean` of an always-empty list (src/wellcode_cli/linear/models/metrics.py:413-419). The model reports that raise as a result and computes no averages.
  - get_stats' float formatting is left out.
  - calculate_actual_time (src/wellcode_cli/linear/linear_metrics.py:196-216) is never called by the modelled code and is not part of this model.
  - Linear pagination and the display are left out.
- DateTimes.EnsureDatetime does not model the string branch: `fromisoformat` parsing (src/wellcode_cli/github/utils.py:16-17) is left out, and values arrive already parsed.
- Runner game:
  - The random draws are parameters of a tick.
  - `power_ups.remove(p)` removes the first equal element in the source. The model removes the element being visited; the two differ only when two equal power-ups are on screen.
  - Rendering, the terminal, threads, sleeping, show_game_over, update/update_score, stop_game and play_cyberpunk are left out.
  - Runner.CyberpunkRunner.ResetGame follows the source: it overwrites width and height and does not reset player_char.
- Split report:
  - The SDK factory and client calls become the `Fetch` outcome. An API key of `""` means unset.
  - The millisecond window bounds and `week_ago_ts` are parameters, and the local-timezone conversion is left out, as is date formatting.
  - An exception in the middle of the loop, or from `destroy`, is left out.
  - A `traffic_type` of None and one of `""` are both treated as lacking traffic.
  - wellcode_cli/split_metrics.py is left out because it only calls the SDK and fills placeholders.
- Text.Lower: only the ASCII letters A to Z are lowered, and every other character is kept. Python's str.lower also lowers non-ASCII capitals, and some of its lowerings change the length (U+0130 becomes two code points). So Commands.ParseCommand, Commands.ParseTimeRange and LegacyCommands.ParseCommand differ from the source on input whose keywords are written with such capitals: "CHEC\u212A" (with the Kelvin sign) is REVIEW in the source and CHAT in the model. The same holds for every other test that lowers first: GithubData.IsBlocked, GithubData.IsRevert and GithubData.IsHotfix (labels and titles), DictGithub.ToMain (the base branch), LinearModels.HasBugLabel and LinearModels.HasFeatureLabel (labels), and the "blocked" state tests of LinearModels.BlockedFrom, LinearModels.Unblocked and LinearModels.CycleTimeMetrics.BlockedDuration; a label such as "HOTFI\u212A" or "BLOC\u212AED" is recognised by the source and missed by the model. The Unicode case tables are not part of this model. Whitespace is modelled in full: Text.IsSpace is Python's str.isspace.
- Retry.HandleGithubErrors: a rate-limit error carries its x-ratelimit headers as integers, absent ones already 0. The source converts them with int() (src/wellcode_cli/github/decorators.py:25-28), which raises ValueError on a non-numeric header; the wrapper then propagates that error instead of sleeping and retrying, and the model does not represent that case.
- LinearModels.CycleStatsOf: the six mean equations are stated separately, in LinearModels.CycleStatsMeans; cycle_time_p95 and cycle_time_p50 are left out (see Statistics).
- The `--flag value` scanning of chat_interface.execute_command (src/wellcode_cli/commands/chat_interface.py:97-106) is left out with the rest of the shell's display code.

## Findings

| source | as written | input that shows it | evidently intended | confidence | as-written member | corrected member |
|---|---|---|---|---|---|---|
| wellcode_cli/github/github_metrics.py:166 | process_pr calls `repo_metrics.update_timestamp(pr_timestamp)`, but the older RepositoryMetrics.update_timestamp (wellcode_cli/github/models/metrics.py:324-325) takes no argument. The TypeError is caught by process_repository's handler (lines 159-161), so no pull request is ever counted. | any pull request created inside the reporting window | move the timestamp, then apply the body from line 168 on | not executed | LegacyGithubPasses.RepositoryAsWrittenEffect | LegacyGithubRepository.RepositoryCorrectedEffect |

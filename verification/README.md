# Release evidence and governance scripts: a verified model

The repository's `scripts/` directory turns evidence files into release decisions: it freezes workflow metrics into
budget contracts, checks consolidation plans, routes findings to owners, builds a scenario database, tracks confidence
scores, validates first-proof summaries, qualifies release candidates and computes portfolio reports. This project
models the code that decides and counts, and proves what the decisions guarantee. Parsed JSON payloads are datatypes,
loops that update lists and dictionaries are methods proved against specification functions, and the guarantees are
lemmas about those functions.

| module | models |
|---|---|
| `Ordering`, `Text`, `Rounding`, `Outcomes` | Python's stable `sorted`, sets of strings in order, `strip`, `round` with ties to even, and calls that may raise |
| `WorkflowContracts`, `WorkflowRatchet`, `WorkflowMetrics`, `WorkflowFindings` | the repository scan, the frozen contracts, their evaluation, chains of re-baselined contracts, and what metrics and findings say of the files |
| `ConsolidationPlan`, `PlanContent`, `OverlapReport`, `OverlapKeys`, `ShellLines` | the plan check, the overlap report over the same inventory, what both say of the lists and workflows, and the shell continuation-line joiner |
| `OwnerEscalation`, `EscalationOrder`, `EscalationChain` | routes, their two-level grouping, recommendations, the patched payload, what it says of the rows, and the way from run history to escalation |
| `TestWalk`, `ScenarioDatabase`, `ScenarioMatrix`, `MatrixContent`, `ScenarioBuild`, `ScenarioRows` | the syntax-tree walk with its shared class stack, test rows, the two generated matrices, deduplication and counts, and where every row comes from |
| `AdaptivePostcheck` | the bounded score history, its trend, and the confidence scores |
| `Powerfuel`, `PowerfuelScores` | trigger counts, retirement candidates and the consolidation score |
| `FirstProofSummary`, `SummaryErrors`, `SummaryPolling`, `FirstProofTrend`, `FollowupHistory` | the summary contract, the health score, the polling loop, the seven-run trend with its breach decision, and remediation incidents |
| `ReleaseQualification`, `ReleaseRecords` | distribution manifest, per-Python records and the verdict |
| `Reporting`, `ReportingContent` | portfolio scorecard, KPI snapshot, and the validator that compares them |
| `Adoption`, `AdoptionGrades` | the weighted adoption scorecard and its contract |

`WorkflowMetrics`, `WorkflowFindings`, `PlanContent`, `OverlapKeys`, `EscalationOrder`, `MatrixContent`, `ScenarioRows`,
`PowerfuelScores`, `SummaryErrors`, `ReleaseRecords`, `ReportingContent` and `AdoptionGrades` state the results on the
raw inputs: which file, row, run, record or field is counted, listed, refused or scored. The specification functions of
the other modules are measured against these statements.

Percentages, averages, clocks and weights are exact reals; `round` is modelled with ties to the even neighbour. SHA-256
digests are given texts of 64 hexadecimal digits. Everything the scripts read from disk, from the clock or from another
program is a parameter.

Eight properties hold only under a condition. Each has its exact condition and an input on which it fails:

* Joining a joined command list again changes nothing exactly when the kept lines do not end stuck, that is, when the
  last non-empty piece of the open continuation does not end in a backslash (`ShellLines.RejoinFixed`). One line that
  ends in two backslashes is stuck (`ShellLines.DoubleBackslash`).
* Every breach ends with the next run that is not NO-SHIP exactly for limits that ask for at least one consecutive
  failure or for no positive ship rate (`FirstProofTrend.AlwaysClearsIff`). At a limit of zero a shipped run can keep
  and even raise a breach (`FirstProofTrend.ShippedRunKeepsBreach`).
* An escalated payload stays as it is through further NO-SHIP runs exactly when there are none or the window was full of
  failures already (`EscalationChain.EscalationUnchangedIff`): the text of the breach states rate and streak. A third
  failure after two changes it (`EscalationChain.EscalationTextMoves`). Summary, recommendations and all routes up to
  that text always stay (`EscalationChain.EscalationPersists`).
* After a passed plan a workflow path is classified in the overlap report exactly when its last part is a name in the
  plan's inventory (`OverlapReport.PassedPlanClassifiesIff`). Every scanned workflow is; one that a topology lists in a
  subdirectory, such as `sub/x.yml`, is not (`OverlapReport.NestedWorkflowUnclassified`).
* A worse portfolio record has no lower risk tier, unless its negative step count has risen to zero with every check
  passed (`Reporting.RiskNeverFalls`, `Reporting.NegativeStepsFall`).
* The KPI validator accepts the snapshot of a built scorecard exactly when there are no records, the window end or the
  week ending is blank, or both are equal (`Reporting.BuiltReportsAgree`, with a refused pair in
  `Reporting.MisalignedWeek`).
* The adoption score lies between its grades for all evidence exactly when the negative normalised weights sum to at
  most 1/200 (`Adoption.AverageIff`); `Adoption.HeavyDebitOvershoots` constructs evidence beyond that bound.
* A higher test pass rate scores no lower, unless it crosses one without reaching the percentage of the lower rate
  (`Adoption.PassRateOrder`, with the rates 1.0 and 1.5).

## Model

| member | source | states |
|---|---|---|
| `WorkflowContracts.JobCount` | scripts/check_workflow_contracts.py:44-60 | the flag-and-break loop counts exactly the two-space job keys between the first unindented `jobs:` line and the next unindented line that is neither blank nor a comment |
| `WorkflowContracts.ActionRows` | scripts/check_workflow_contracts.py:63-78 | the kept action rows are the non-local `uses:` lines, in order |
| `WorkflowContracts.CheckBudgets` | scripts/check_workflow_contracts.py:261-274 | the budget loop appends, in order, one finding for each absent budget and each metric above its budget, and keeps earlier findings |
| `WorkflowContracts.EvaluateContracts` | scripts/check_workflow_contracts.py:206-333 | the evaluation raises exactly when `ci.yml` is absent, and otherwise reports the metrics, the trimmed contexts and every violation in order |
| `WorkflowMetrics.MetricsCountFiles` | scripts/check_workflow_contracts.py:91-127 | the workflow, write-permission, reusable, heavy, monolithic and drift-workflow metrics are the numbers of workflow files with any write scope or write-all, a `workflow_call`, 250 lines or eight jobs, 250 lines with at most two jobs and no `workflow_call`, or an inexact version |
| `WorkflowMetrics.MetricsCountLines` | scripts/check_workflow_contracts.py:63-127 | the unpinned and drift-occurrence metrics are the numbers of non-local action lines of all workflow files without a full SHA, or without an exact version |
| `WorkflowMetrics.JobHeaderMeans` | scripts/check_workflow_contracts.py:44-60 | a job header is two spaces, a key of letters, digits, `_`, `.` and `-`, and a colon, with nothing but spaces after it |
| `WorkflowMetrics.JobsLineMeans` | scripts/check_workflow_contracts.py:49-51 | the block opens with an unindented `jobs:` |
| `WorkflowMetrics.JobsCounted` | scripts/check_workflow_contracts.py:44-60 | the job count is the number of header lines in the block |
| `WorkflowMetrics.WorkflowNameMeans` | scripts/check_workflow_contracts.py:39-41 | workflow files are exactly those ending in `.yml` or `.yaml`, below the workflow root |
| `WorkflowMetrics.FrozenContract` | scripts/check_workflow_contracts.py:131-169 | a frozen contract holds the measured inventory and metrics, zero for unpinned actions and a target of twelve |
| `WorkflowFindings.FindingMeans` | scripts/check_workflow_contracts.py:206-333 | every reported finding is true of files and contract in every detail it carries |
| `WorkflowFindings.FindingReported` | scripts/check_workflow_contracts.py:206-333 | every kind of deviation that is there is reported |
| `WorkflowFindings.BudgetReportedIff` | scripts/check_workflow_contracts.py:261-288 | for each metric a finding is reported exactly when its budget is absent, or is exceeded (for reusable workflows: not reached) |
| `WorkflowRatchet.ScannedFiles` | scripts/check_workflow_contracts.py:39-41 | the scan covers exactly the `.yml` and `.yaml` files, row by row in name order |
| `WorkflowRatchet.InventoryShape` | scripts/check_workflow_contracts.py:107-111 | the inventory is strictly ascending and lists exactly the workflow files |
| `WorkflowRatchet.UnpinnedAgree` | scripts/check_workflow_contracts.py:289-296 | the unpinned count and the unpinned list are empty together, exactly when every remote action of every workflow has a full SHA |
| `WorkflowRatchet.PassesIff` | scripts/check_workflow_contracts.py:206-333 | no violation is reported exactly when schema, inventory (as a multiset), anchors, budgets and pinning hold, the contexts are sorted, unique and equal to the live ones, and CI runs the check |
| `WorkflowRatchet.OwnContract` | scripts/check_workflow_contracts.py:131-169 | a repository passes the contract frozen from itself exactly when nothing is unpinned, every anchor exists and the required-check half holds |
| `WorkflowRatchet.ChainNoLooser` | scripts/check_workflow_contracts.py:131-296 | along a chain in which each repository passes its predecessor's contract, with an anchor list of its own at every re-baselining, between any two positions the inventory is equal, no maximum metric rises and the reusable count does not fall |
| `WorkflowRatchet.Ratchet` | scripts/check_workflow_contracts.py:131-296 | every repository of the chain passes the contract of every earlier one, with that contract's own anchors, the first included |
| `WorkflowRatchet.ContextRoundTrip` | scripts/check_workflow_contracts.py:172-203 | a live payload is read exactly when it is a list or an object with a list or without contexts, and a contract built from one context list then accepts it exactly when both have the same trimmed non-empty names, whatever their order and repetition |
| `WorkflowRatchet.MetricBounds` | scripts/check_workflow_contracts.py:91-127 | monolithic workflows are heavy, heavy ones are counted in the inventory, and drifting workflows do not outnumber drift occurrences |
| `ConsolidationPlan.EvaluatePlan` | scripts/check_workflow_consolidation_plan.py:47-190 | the report holds all violations in order, the four list lengths, and one classification for exactly the workflows named in some list, the later list winning |
| `ConsolidationPlan.Classifications` | scripts/check_workflow_consolidation_plan.py:157-165 | overwriting in list order leaves for each workflow the disposition of the last list that names it |
| `ConsolidationPlan.CoverageIff` | scripts/check_workflow_consolidation_plan.py:54-58 | over an inventory without repetition, the coverage and overlap checks are both silent exactly when the four lists are a rearrangement of the inventory |
| `ConsolidationPlan.PlanPassesIff` | scripts/check_workflow_consolidation_plan.py:47-155 | a plan has no violation exactly when its id and count are right, its lists name every inventory workflow once and nothing else, its primary list is the anchors as a multiset within the shared target, its references are known and its issue policy holds |
| `ConsolidationPlan.PassedPlanPartitions` | scripts/check_workflow_consolidation_plan.py:47-190 | a passed plan over a scanned repository names every workflow in exactly one list, names nothing else, its four counts add up to the workflow count, and its primary list is the anchors |
| `ConsolidationPlan.OnlyInDisposition` | scripts/check_workflow_consolidation_plan.py:157-165 | a workflow named in one list only is classified under that list |
| `PlanContent.ViolationMeans` | scripts/check_workflow_consolidation_plan.py:47-155 | a finding is reported exactly when it is true of the entries of plan and topology, with exactly its details: missing, unknown, repeated and unreferenced names in order, and both counts |
| `PlanContent.ClassificationMeans` | scripts/check_workflow_consolidation_plan.py:157-165 | standalone wins over retirement, retirement over bundles and those over the primary list; the bridge, reusable and publisher flags are set for exactly the trimmed entries of their own lists |
| `PlanContent.CountsMean` | scripts/check_workflow_consolidation_plan.py:168-190 | the counts are the numbers of entries that are not blank |
| `OverlapReport.ClassificationMap` | scripts/build_workflow_overlap_report.py:193-204 | the second classifier, which visits bundles unsorted, gives every workflow the same disposition as the plan report, for overlapping plans as well |
| `OverlapReport.BundleOrder` | scripts/build_workflow_overlap_report.py:197-199 | sorting the bundles by name does not change which workflows they name |
| `OverlapReport.ScanInventory` | scripts/build_workflow_overlap_report.py:238-279 | the loop with its two `continue`s reports missing, unparsable and unclassified workflows in order, counts the parsed ones, and lists under every trigger tuple, folded display name, proof, action root and artifact name the carrying workflows in inventory order with repetition |
| `OverlapReport.SightingsMember` | scripts/build_workflow_overlap_report.py:271-279 | a name is listed under a key exactly when a parsed inventory workflow of that name has the key |
| `OverlapReport.OverlapGroups` | scripts/build_workflow_overlap_report.py:207-216 | for any kind of key, one group for exactly the keys shared by two or more distinct workflows, without repetition, larger groups first and then by the text of the key |
| `OverlapReport.MapContexts` | scripts/build_workflow_overlap_report.py:281-294 | each required context is mapped to the workflows of that display name or else to those with a job of that name, and reported when there is none |
| `OverlapReport.MatchesIff` | scripts/build_workflow_overlap_report.py:283-294 | a context has a match exactly when some parsed workflow or one of its jobs folds to the same name |
| `OverlapReport.BuildReport` | scripts/build_workflow_overlap_report.py:219-345 | the report holds the parsed count, all findings in order, the context mapping and, for each of the four grouped indexes, exactly the keys shared by two distinct workflows, in order and without repetition |
| `OverlapReport.MembersIff` | scripts/build_workflow_overlap_report.py:300-302 | a workflow is a duplicate member exactly when it shares a proof with another workflow |
| `OverlapReport.ReportPassesIff` | scripts/build_workflow_overlap_report.py:241-306 | the report is free of findings exactly when every inventory workflow is there, parses and is classified, and every required context has a match |
| `OverlapReport.PassedPlanClassifiesAll` | scripts/build_workflow_overlap_report.py:256-257 | after a passed plan no workflow of the scanned inventory is reported unclassified |
| `OverlapReport.PassedPlanClassifiesIff` | scripts/build_workflow_overlap_report.py:193-257 | after a passed plan over any topology, a path is classified exactly when its last part is in the plan's inventory, which keeps subdirectories in its names |
| `OverlapReport.NestedWorkflowUnclassified` | scripts/build_workflow_overlap_report.py:241-257 | for every workflow listed in a subdirectory, a plan that keeps it passes while the report finds it unclassified |
| `OverlapKeys.BaseNameMeans` | scripts/build_workflow_overlap_report.py:241-241 | the name of a path is what follows its last slash, and trailing slashes and dots do not count |
| `OverlapKeys.VersionsShareKey` | scripts/build_workflow_overlap_report.py:275-277 | two versions of one action share their key, which is what stands before the first `@` |
| `OverlapKeys.KeysMean` | scripts/build_workflow_overlap_report.py:271-279 | the keys of a workflow are its trigger list, its proofs, the actions its jobs use in whatever version, its artifacts, its folded display name and its folded job names |
| `OverlapKeys.SharersMean` | scripts/build_workflow_overlap_report.py:271-279 | a key is shared by exactly the names of the parsed inventory workflows that have it |
| `OverlapKeys.GroupsMean` | scripts/build_workflow_overlap_report.py:207-216 | a key has a group exactly when workflows of two different names have it, and the group lists exactly these names in order |
| `OverlapKeys.GroupsOrdered` | scripts/build_workflow_overlap_report.py:216-216 | larger groups stand first, and equally large ones in the order of their keys |
| `OverlapKeys.FindingMeans` | scripts/build_workflow_overlap_report.py:241-294 | a finding is reported exactly when the workflow is missing, is unparsable, is parsed and named in no list of the plan, or when no parsed workflow or job carries the required context |
| `OverlapKeys.CountMeans` | scripts/build_workflow_overlap_report.py:269-269 | the workflow count is the number of inventory positions that parse |
| `OverlapKeys.MatchesMean` | scripts/build_workflow_overlap_report.py:281-294 | a context is mapped to exactly the workflows of that display name, and to those with a job of that name only when there are none |
| `ShellLines.JoinShellLines` | scripts/build_workflow_overlap_report.py:110-125 | the buffer loop computes the declarative grouping of the kept lines, each group joined with its backslashes removed |
| `ShellLines.GroupsShape` | scripts/build_workflow_overlap_report.py:113-122 | the groups cut the kept lines in order; each closed group ends at its first line without a backslash and only the last may be open |
| `ShellLines.JoinedClean` | scripts/build_workflow_overlap_report.py:110-125 | every output is non-empty, trimmed and no comment, and none but the last can end in a backslash |
| `ShellLines.IgnoredLinesAnywhere` | scripts/build_workflow_overlap_report.py:114-116 | blank and comment lines can be inserted anywhere, even inside a continuation, without effect |
| `ShellLines.RejoinFixed` | scripts/build_workflow_overlap_report.py:110-125 | joining the output again changes nothing exactly when the kept lines do not end stuck, which they never do when the last one does not end in a backslash |
| `ShellLines.OpenTextStuck` | scripts/build_workflow_overlap_report.py:117-124 | the text left open at the end ends in a backslash exactly when the last non-empty piece of the open continuation does |
| `ShellLines.DoubleBackslash` | scripts/build_workflow_overlap_report.py:118-120 | a line ending in two backslashes is joined to one that ends in one, and only joining again removes that |
| `ShellLines.TwoLines` | scripts/build_workflow_overlap_report.py:117-124 | a continued line is joined to the next with one space, however much stood before the backslash, and lines that are not continued stay apart |
| `OwnerEscalation.BuildRoutes` | scripts/build_owner_escalation_payload.py:125-145 | the loop over rows yields the normalised routes of the well-formed rows, stably sorted by severity, owner, check, SLA and details |
| `OwnerEscalation.GroupRoutes` | scripts/build_owner_escalation_payload.py:213-218 | the nested `setdefault` loop has one bucket for exactly the owner and severity pairs that occur, each with its routes in order |
| `OwnerEscalation.BuildActions` | scripts/build_owner_escalation_payload.py:222-242 | for a grouped owner the actions follow severity priority and the total is the number of the owner's routes |
| `OwnerEscalation.BuildRecommendations` | scripts/build_owner_escalation_payload.py:207-260 | the grouping implementation equals the specification that filters the routes per owner and severity, including the unassigned fallback |
| `OwnerEscalation.EscalationPayload` | scripts/build_owner_escalation_payload.py:305-326 | patching the built payload in place equals building the payload from scratch on a postcheck with the threshold row appended, and without a breach leaves it as built |
| `OwnerEscalation.IncrementalRoutes` | scripts/build_owner_escalation_payload.py:316-320 | adding one route to sorted routes and sorting again equals sorting all rows at once, tie order included |
| `OwnerEscalation.RecommendationsPermutation` | scripts/build_owner_escalation_payload.py:198-260 | recommendations and summary depend only on the multiset of routes |
| `OwnerEscalation.RecommendationsIgnoreDetails` | scripts/build_owner_escalation_payload.py:198-260 | routes that agree as a multiset up to their details texts, although these are sort keys, give equal recommendations and summaries |
| `OwnerEscalation.Conservation` | scripts/build_owner_escalation_payload.py:220-247 | the checks of all actions are the checks of all routes as a multiset; totals over owners and route counts over actions both sum to the number of routes |
| `OwnerEscalation.RecommendationsOrdered` | scripts/build_owner_escalation_payload.py:221-247 | owners come out strictly ordered, each owner's severities from critical to high, medium, low and warn, and no action is empty |
| `EscalationOrder.RoutesOrdered` | scripts/build_owner_escalation_payload.py:114-145 | no route stands before a more urgent one, critical before high, medium, low and warn; among equally urgent ones owner, check, SLA and details decide in this order |
| `EscalationOrder.RoutesSayRows` | scripts/build_owner_escalation_payload.py:125-145 | every route occurs exactly as often as rows of the postcheck say what it says, with the defaults `unknown`, `platform-ops`, `7d`, medium and the scenario for what they leave out |
| `EscalationOrder.SeverityWords` | scripts/build_owner_escalation_payload.py:109-111 | case and surrounding spaces of a severity do not matter, and an unknown word is medium |
| `EscalationOrder.SummaryCounts` | scripts/build_owner_escalation_payload.py:198-204 | the summary counts the routes, and those that are critical, high and medium |
| `EscalationOrder.RecommendationsMean` | scripts/build_owner_escalation_payload.py:207-247 | one recommendation for each owner in name order; its actions are one for each severity the owner has, most urgent first, with P0 exactly for critical, P1 for high, P2 for medium and P3 below, the number of such routes, their checks in order and as often as they occur, and their SLAs without repetition |
| `EscalationOrder.NothingRouted` | scripts/build_owner_escalation_payload.py:249-258 | without routes there is one recommendation for nobody exactly when there is something to suggest |
| `EscalationOrder.ThresholdRouteMeans` | scripts/build_owner_escalation_payload.py:155-195 | a route is added exactly on a breach, with the owner, severity and SLA of the branch's profile or else of the default one, and otherwise `release-ops`, high and `3d` |
| `EscalationChain.Escalate` | scripts/build_owner_escalation_payload.py:155-195 | loading the runs, checking the trend and patching the payload gives the payload built from the postcheck, extended exactly when the history breaches by the breach route, whose text states the measured rate and streak next to their limits |
| `EscalationChain.EscalatesIff` | scripts/build_owner_escalation_payload.py:171-195 | as a multiset the routes are those of the postcheck and, exactly when the weekly trend breaches, the breach route |
| `EscalationChain.DetailsOnly` | scripts/build_owner_escalation_payload.py:180-195 | two breach texts give the same summary, the same recommendations and the same multiset of routes up to the text, and the same payload exactly when they are equal |
| `EscalationChain.EscalationPersists` | scripts/build_owner_escalation_payload.py:171-195 | through any number of further NO-SHIP runs the breach stays raised, and the payload keeps its summary, its recommendations and its routes as a multiset up to their details |
| `EscalationChain.EscalationUnchangedIff` | scripts/build_owner_escalation_payload.py:180-195 | the whole payload stays the same through further NO-SHIP runs exactly when there are none or the seven-run window was full of failures already |
| `EscalationChain.EscalationTextMoves` | scripts/build_owner_escalation_payload.py:180-195 | a third failure after two changes the payload, for any postcheck, branch and profiles |
| `EscalationChain.OtherRunLifts` | scripts/check_first_proof_trend_threshold.py:68-81 | with a limit of at least one the next other run takes the escalation back |
| `EscalationChain.BreachText` | scripts/build_owner_escalation_payload.py:172-195 | the text of a breach shows the share of shipped runs among the last seven with two digits, the streak up to seven, and both limits |
| `TestWalk.Walker.Walk` | scripts/build_adaptive_scenario_database.py:35-48 | the walk that pushes and pops the shared stack appends exactly what the recursive specification with an explicit path yields, and leaves the stack as it found it |
| `TestWalk.Walker.WalkEach` | scripts/build_adaptive_scenario_database.py:39-48 | the same for a list of children |
| `TestWalk.WalkComplete` | scripts/build_adaptive_scenario_database.py:32-50 | what is found is exactly the test functions at some address of the tree, each with the names of the classes above it |
| `TestWalk.ParametrizeCases` | scripts/build_adaptive_scenario_database.py:53-75 | the case count is the product of the non-empty literal lengths of the `parametrize` decorators and is at least one |
| `TestWalk.CasesMultiply` | scripts/build_adaptive_scenario_database.py:53-75 | a decorator multiplies the cases by the length of its second argument exactly when it calls `parametrize` with a non-empty literal there |
| `TestWalk.TestNameMeans` | scripts/build_adaptive_scenario_database.py:43-46 | tests are the functions whose name starts with `test_` |
| `ScenarioDatabase.EmitRows` | scripts/build_adaptive_scenario_database.py:93-113 | one row for a single case, otherwise numbered rows from 1 to the case count |
| `ScenarioDatabase.ExtractTestScenarios` | scripts/build_adaptive_scenario_database.py:78-114 | a file's rows are those of its test functions in walk order, and none when it does not parse |
| `ScenarioDatabase.FileRowCount` | scripts/build_adaptive_scenario_database.py:88-114 | a file contributes the sum, over its test functions, of their case counts |
| `ScenarioDatabase.CaseIdsDistinct` | scripts/build_adaptive_scenario_database.py:103-113 | the numbered cases of one test have distinct ids |
| `ScenarioDatabase.DedupRows` | scripts/build_adaptive_scenario_database.py:512-515 | overwriting a dictionary and sorting its values gives the last row of every id in id order |
| `ScenarioDatabase.DedupShape` | scripts/build_adaptive_scenario_database.py:512-515 | the result is strictly ascending in id and holds exactly the last row of each id |
| `ScenarioDatabase.DedupIdempotent` | scripts/build_adaptive_scenario_database.py:489-491 | deduplicating twice equals deduplicating once |
| `ScenarioDatabase.CountsSum` | scripts/build_adaptive_scenario_database.py:517-518 | counts by a key that always takes a listed value add up to the number of rows |
| `ScenarioDatabase.LastRowWins` | scripts/build_adaptive_scenario_database.py:512-515 | a row that no later row of its id follows is kept, and no other row of its id |
| `ScenarioMatrix.GenerateReviewerMatrix` | scripts/build_adaptive_scenario_database.py:204-241 | the six nested loops emit 7560 rows, row k being the combination given by the mixed-radix digits of k |
| `ScenarioMatrix.GeneratePrMatrix` | scripts/build_adaptive_scenario_database.py:244-270 | the five nested loops emit 1080 rows in mixed-radix order |
| `ScenarioMatrix.ReviewerIds` | scripts/build_adaptive_scenario_database.py:228-232 | different combinations of the reviewer matrix have different ids |
| `ScenarioMatrix.PrIds` | scripts/build_adaptive_scenario_database.py:258-261 | different combinations of the PR matrix have different ids |
| `ScenarioMatrix.MatrixIdsUnique` | scripts/build_adaptive_scenario_database.py:204-270 | no id occurs twice within or across the two matrices |
| `ScenarioMatrix.ReviewerPerDomain` | scripts/build_adaptive_scenario_database.py:220-240 | every domain gets its block of 1512 reviewer rows, for every prefix of the matrix |
| `ScenarioMatrix.PrPerDomain` | scripts/build_adaptive_scenario_database.py:251-269 | every domain gets its block of 216 PR rows |
| `MatrixContent.MatricesMean` | scripts/build_adaptive_scenario_database.py:204-270 | the matrices hold exactly the rows of all combinations of the listed words, with the ids these spell |
| `ScenarioBuild.BuildDb` | scripts/build_adaptive_scenario_database.py:494-543 | running the extractors in order, overwriting by id and counting gives the specified database: the deduplicated rows, their number, their counts by domain and kind, the target flag and the adaptive-learning block |
| `ScenarioBuild.MatrixSurvives` | scripts/build_adaptive_scenario_database.py:501-515 | no extractor can take an id from the matrices: every matrix row is in every database |
| `ScenarioBuild.MatrixCounts` | scripts/build_adaptive_scenario_database.py:494-518 | every database has exactly 7560 reviewer and 1080 PR matrix rows |
| `ScenarioBuild.DomainRows` | scripts/build_adaptive_scenario_database.py:517-517 | every domain has at least 1728 rows |
| `ScenarioBuild.DatabaseSound` | scripts/build_adaptive_scenario_database.py:512-541 | for any repository ids are strictly increasing, domain and kind counts each sum to the total, and the target is met |
| `ScenarioBuild.LearningCoverage` | scripts/build_adaptive_scenario_database.py:519-539 | learning coverage is five points for each learning signal up to a hundred, so readiness for precision implies at least half |
| `ScenarioBuild.NothingDomainRows` | scripts/build_adaptive_scenario_database.py:204-270 | a repository with nothing to extract has exactly 1728 rows in each domain |
| `ScenarioRows.DatabaseRows` | scripts/build_adaptive_scenario_database.py:78-515 | every row is one that the extractor of its kind lists, with its id, domain and source as the surfaces of the repository give them, and every id an extractor lists is in the database under that extractor |
| `ScenarioRows.ListingsKept` | scripts/build_adaptive_scenario_database.py:117-181 | every contract, workflow, module, script and reviewer automation of the repository has its row in the database, with id, domain and source |
| `ScenarioRows.KindCounts` | scripts/build_adaptive_scenario_database.py:494-518 | each kind except those of the tests is counted as often as its extractor lists distinct ids, so no extractor takes a row from another |
| `ScenarioRows.TestCounts` | scripts/build_adaptive_scenario_database.py:78-114 | plain tests and cases together are counted as often as the test functions of the parsed files have distinct ids |
| `ScenarioRows.LearningSignals` | scripts/build_adaptive_scenario_database.py:519-541 | the learning block counts the distinct outcomes and events of the artifacts, and is ready for precision from five of each on |
| `ScenarioRows.DomainMeans` | scripts/build_adaptive_scenario_database.py:19-29 | the domain of a path is decided by the first of the listed words that it contains |
| `ScenarioRows.ReviewerMeans` | scripts/build_adaptive_scenario_database.py:273-277 | an automation is a reviewer exactly when its name without suffix contains `worker`, `review` or `radar` |
| `AdaptivePostcheck.ConfidenceHistory.Update` | scripts/adaptive_postcheck.py:706-747 | the new entries are the last twenty with the score appended; trend and window size come from the last seven |
| `AdaptivePostcheck.RunKeepsLast` | scripts/adaptive_postcheck.py:717-723 | after any run from empty the history holds exactly the last twenty scores in order |
| `AdaptivePostcheck.RunTrend` | scripts/adaptive_postcheck.py:725-737 | after any run the trend is a function of the last seven scores and is insufficient exactly below four scores |
| `AdaptivePostcheck.TrendFollowsScores` | scripts/adaptive_postcheck.py:726-737 | a non-decreasing window is never regressing and a non-increasing one never improving, with unequal halves as well |
| `AdaptivePostcheck.SmallMovesAreStable` | scripts/adaptive_postcheck.py:731-737 | scores within two points of each other are stable |
| `AdaptivePostcheck.FullDatabaseScore` | scripts/adaptive_postcheck.py:666-703 | with a large enough database the pass rate alone decides: the score is 100 from 139/140, auto-approval starts at 17/20 and remediation ends at 79/140, each exactly |
| `AdaptivePostcheck.DomainSnapshot` | scripts/adaptive_postcheck.py:782-797 | the snapshot has exactly the text keys of the domains dictionary, each with the confidence of its count, where a count that is no number is zero, and is empty without a dictionary |
| `AdaptivePostcheck.FullConfidenceIff` | scripts/adaptive_postcheck.py:789-796 | a domain reaches 100 exactly from 99.5 percent of its target on |
| `AdaptivePostcheck.FreshDomainsIff` | scripts/adaptive_postcheck.py:782-797 | every freshly built database gives all five domains confidence 100 exactly for minimums up to 8683 |
| `AdaptivePostcheck.EmptyRepositoryFallsShort` | scripts/adaptive_postcheck.py:782-797 | beyond that bound the database of an empty repository falls short |
| `AdaptivePostcheck.FreshDatabaseConfidence` | scripts/adaptive_postcheck.py:666-683 | for minimums up to the size of the database the overall score is 100 exactly by the pass rate |
| `AdaptivePostcheck.OnlyObjectsScore` | scripts/adaptive_postcheck.py:726-726 | stored values that are no objects have no score, wherever they stand |
| `AdaptivePostcheck.TrendIff` | scripts/adaptive_postcheck.py:727-737 | the trend is improving, regressing or stable exactly by whether the average of the later half lies three points above, three below, or in between |
| `AdaptivePostcheck.FullWindowTrend` | scripts/adaptive_postcheck.py:727-737 | in a full window the last four scores are compared with the three before them |
| `AdaptivePostcheck.HalvesApart` | scripts/adaptive_postcheck.py:727-737 | halves that lie three points apart give the trend of that direction |
| `AdaptivePostcheck.ChecksAreSeventy` | scripts/adaptive_postcheck.py:666-683 | with database and matrix full, each tenth of the checks that passed is worth seven points above thirty |
| `AdaptivePostcheck.SizeIsTwenty` | scripts/adaptive_postcheck.py:666-683 | with all checks passed, each twentieth of the minimum is worth one point above eighty |
| `AdaptivePostcheck.MatrixIsTen` | scripts/adaptive_postcheck.py:666-683 | with all checks passed and enough scenarios, each hundred matrix rows are worth one point above ninety |
| `AdaptivePostcheck.DomainShare` | scripts/adaptive_postcheck.py:789-796 | the confidence of a domain is its count in percent of a fifth of the minimum |
| `Powerfuel.DetectTriggers` | scripts/build_powerfuel_baseline.py:31-36 | the detected triggers are the declared ones in the fixed order |
| `Powerfuel.SumExcess` | scripts/build_powerfuel_baseline.py:62-62 | the sum over the counter's values, in any order of its keys, of what exceeds one |
| `Powerfuel.BuildBaseline` | scripts/build_powerfuel_baseline.py:53-62 | the counter holds for each trigger the number of workflows with it, the map each workflow's triggers, and the duplicates are the summed excess |
| `Powerfuel.BuildCandidates` | scripts/build_powerfuel_shadow_log.py:43-62 | one candidate for each workflow, sorted by falling score, falling trigger count and name |
| `Powerfuel.ScoreWithinDuplicates` | scripts/build_powerfuel_shadow_log.py:26-27 | a workflow's priority score is between zero and the duplicates of all workflows |
| `Powerfuel.DoubleCount` | scripts/build_powerfuel_baseline.py:54-60 | summing the counters by trigger equals summing the trigger lists by workflow |
| `Powerfuel.DuplicatesAreExtras` | scripts/build_powerfuel_baseline.py:62-62 | the duplicates are all trigger occurrences minus the number of distinct triggers |
| `Powerfuel.TopIsMaximum` | scripts/build_powerfuel_consolidation_score.py:33-33 | the first candidate's score is the maximum over all workflows, and zero without workflows |
| `Powerfuel.DuplicatesRetire` | scripts/build_powerfuel_shadow_log.py:26-27 | retiring a workflow lowers the duplicates by exactly the number of its triggers that others have too, hence strictly exactly when its score is positive |
| `Powerfuel.RetireNeverRaises` | scripts/build_powerfuel_consolidation_score.py:26-36 | retiring any workflow raises neither the consolidation score nor the lane |
| `Powerfuel.RetirementPlanNeverRaises` | scripts/build_powerfuel_consolidation_score.py:26-36 | nor does any sequence of retirements raise the score |
| `PowerfuelScores.DuplicatesMean` | scripts/build_powerfuel_baseline.py:62-62 | the duplicates are, for each of the five triggers, the workflows that declare it beyond the first |
| `PowerfuelScores.ScoreMeans` | scripts/build_powerfuel_shadow_log.py:26-27 | the priority score of a workflow counts, over its triggers, the other workflows that share them |
| `PowerfuelScores.RankingOrdered` | scripts/build_powerfuel_shadow_log.py:56-62 | higher scores stand first, then more triggers, then the name decides |
| `PowerfuelScores.RankingMembers` | scripts/build_powerfuel_shadow_log.py:43-62 | the ranking has one candidate for each workflow and no other, with its name, its score and its triggers in ascending order |
| `PowerfuelScores.LaneMeans` | scripts/build_powerfuel_consolidation_score.py:26-36 | score and lane are decided by five duplicates, three top-score points and two workflows to ten points: high from 700 tenths, medium from 400, and never above a hundred points |
| `FirstProofSummary.CheckSteps` | scripts/check_first_proof_summary_contract.py:66-94 | the step loop appends each step's errors with its one-based position and collects the failing names in order |
| `FirstProofSummary.CheckContract` | scripts/check_first_proof_summary_contract.py:28-114 | the check raises exactly on unhashable decisions or unsortable failed steps, and otherwise returns the errors in order, stopping early when steps is no list |
| `FirstProofSummary.AcceptedIff` | scripts/check_first_proof_summary_contract.py:28-114 | no errors are reported exactly for summaries with all keys and types, whose failed steps are the failing names as a multiset and whose three outcome fields follow from them |
| `FirstProofSummary.CalculateScore` | scripts/build_first_proof_health_score.py:19-39 | the score is what the not-ok, failed-step and doctor penalties leave of 100, clamped, with their reasons in order; it raises where a step or list has the wrong type |
| `FirstProofSummary.HealthOfAccepted` | scripts/build_first_proof_health_score.py:19-48 | for every accepted summary SHIP gives 100 and green, NO-SHIP a score in 0..40 and red by the stated penalties; yellow is unreachable and the clamp never acts |
| `SummaryErrors.ErrorMeans` | scripts/check_first_proof_summary_contract.py:28-114 | an error is reported exactly when it is true of the summary, step by step and key by key |
| `SummaryErrors.RaisesMeans` | scripts/check_first_proof_summary_contract.py:39-97 | the check raises exactly for verdicts that are lists or objects, and for failed steps that mix texts with other values |
| `SummaryErrors.HealthMeans` | scripts/build_first_proof_health_score.py:19-39 | the score is 100 less fifty for a summary that is not ok, ten up to thirty for failed steps, and twenty for a first doctor step whose return code is missing or not zero |
| `SummaryErrors.HealthWithoutDoctor` | scripts/build_first_proof_health_score.py:19-39 | without a doctor step nothing is taken off for it |
| `SummaryErrors.YellowSummary` | scripts/build_first_proof_health_score.py:34-48 | a summary that is ok although its doctor failed scores 80 and is yellow, with the bounds of the lights |
| `SummaryPolling.PollSummary` | scripts/check_first_proof_summary_contract.py:141-201 | for any sequence of file states and any clock that advances by the pause, the loop stops after at most ceil(W/s)+1 polls, at the first poll that is valid, raises an error that escapes the loop, or is past the deadline, with the stated verdict |
| `SummaryPolling.OutcomeIff` | scripts/check_first_proof_summary_contract.py:145-201 | a whole run crashes exactly when it reaches a poll that raises an uncaught error or makes the contract check raise, and succeeds unskipped exactly when it reaches a poll that reads a valid summary; a poll is reached when none before it was valid, raised or came after the deadline |
| `SummaryPolling.SuccessIff` | scripts/check_first_proof_summary_contract.py:164-201 | unskipped success is reported exactly when the last poll read a valid summary |
| `SummaryPolling.SkippedIff` | scripts/check_first_proof_summary_contract.py:164-177 | the check is skipped exactly when that is allowed, the last poll found no file and no poll ever loaded an object |
| `SummaryPolling.RetainedErrors` | scripts/check_first_proof_summary_contract.py:147-162 | a retained object is reported with its own errors, which are not empty when the last poll read nothing |
| `SummaryPolling.BoundMeans` | scripts/check_first_proof_summary_contract.py:141-162 | a wait of n pauses takes at most n + 1 polls, no pause is shorter than a twentieth of a second, and without a positive wait there is one poll |
| `FirstProofTrend.LoadRuns` | scripts/build_first_proof_weekly_trend.py:20-30 | blank lines and lines that are no objects are dropped, the runs kept in order |
| `FirstProofTrend.CheckThreshold` | scripts/check_first_proof_trend_threshold.py:63-108 | the reversed loop counts the trailing NO-SHIP runs, and breach, data flag and action follow from rate, total and streak |
| `FirstProofTrend.TrailingSuffix` | scripts/check_first_proof_trend_threshold.py:68-76 | the streak is the longest suffix of NO-SHIP runs |
| `FirstProofTrend.WindowBound` | scripts/build_first_proof_weekly_trend.py:84-87 | ships and trailing failures together never exceed the window, which has at most seven runs |
| `FirstProofTrend.TrailingInWindow` | scripts/check_first_proof_trend_threshold.py:67-76 | the window shows the streak of the whole history, cut at seven |
| `FirstProofTrend.RateFallsOnNoShip` | scripts/build_first_proof_weekly_trend.py:85-87 | one more NO-SHIP run never raises the ship rate, whether the window grows or slides |
| `FirstProofTrend.BreachPersists` | scripts/check_first_proof_trend_threshold.py:63-81 | a breach survives any number of further NO-SHIP runs |
| `FirstProofTrend.OtherRunClears` | scripts/check_first_proof_trend_threshold.py:68-81 | with a limit of at least one any other run clears a breach |
| `FirstProofTrend.AlwaysClearsIff` | scripts/check_first_proof_trend_threshold.py:68-81 | every breach over any history ends with the next other run exactly when the limit is at least one or the demanded rate is not positive |
| `FirstProofTrend.ShippedRunKeepsBreach` | scripts/check_first_proof_trend_threshold.py:68-81 | at a limit of zero a shipped run keeps one breach and raises another |
| `FirstProofTrend.ZeroLimitIgnoresStreak` | scripts/check_first_proof_trend_threshold.py:78-81 | with a limit of zero or less only data and rate decide |
| `FirstProofTrend.BreachIff` | scripts/check_first_proof_trend_threshold.py:63-81 | a breach is raised exactly when there are enough runs, fewer of the last seven runs shipped than the limit's share of them, the streak limit is at most seven and at most the number of runs, and the last runs up to that limit are all NO-SHIP |
| `FirstProofTrend.StreakBreaches` | scripts/check_first_proof_trend_threshold.py:63-81 | seven or more NO-SHIP runs in a row end in a breach after any history, once all runs together reach the demanded number, for limits of at most seven and any positive rate |
| `FirstProofTrend.ShipRateIsShare` | scripts/build_first_proof_weekly_trend.py:85-87 | the rate times the number of recent runs is the number of shipped ones; it is one exactly when all shipped and zero exactly when none did |
| `FirstProofTrend.TrailingSkips` | scripts/check_first_proof_trend_threshold.py:70-76 | entries of the window that are no objects have no part in the streak |
| `FollowupHistory.RemediationDurations` | scripts/build_followup_ready_history_metrics.py:41-51 | the open-failure loop yields one duration for each success that directly follows a failure, measured from the start of its block of failures |
| `FollowupHistory.BlockShape` | scripts/build_followup_ready_history_metrics.py:47-48 | the block from which a duration is measured is a maximal run of failures |
| `FollowupHistory.ClosedIncidents` | scripts/build_followup_ready_history_metrics.py:53-61 | the number of closed incidents is the number of adjacent failure and success pairs |
| `FollowupHistory.HistoryIsStable` | scripts/build_followup_ready_history_metrics.py:32-51 | appending to the history keeps all earlier durations as a prefix |
| `FollowupHistory.DurationsWithinSpan` | scripts/build_followup_ready_history_metrics.py:41-51 | with timestamps in order durations are non-negative and sum to at most the history's span |
| `FollowupHistory.IncidentMeans` | scripts/build_followup_ready_history_metrics.py:41-51 | a success that ends a block of failures is recorded after the incidents before it, in hours since the block began |
| `ReleaseQualification.BuildVerdict` | scripts/build_release_candidate_qualification.py:116-209 | the accumulating loop accepts exactly the record lists that qualify together, and names the common wheel |
| `ReleaseQualification.EachPythonOnce` | scripts/build_release_candidate_qualification.py:177-181 | qualifying records are three and hold each supported Python exactly once |
| `ReleaseQualification.VerdictOrder` | scripts/build_release_candidate_qualification.py:116-209 | any rearrangement of qualifying records qualifies with the same wheel |
| `ReleaseQualification.ManifestWheelIff` | scripts/build_release_candidate_qualification.py:40-64 | from an accepted distribution a wheel is read exactly when there is one wheel and it is not empty, and it is that wheel |
| `ReleaseQualification.RecordIff` | scripts/build_release_candidate_qualification.py:67-113 | a record is built exactly when Python, runtime, evidence set, evidence contents and the single non-empty wheel are all right |
| `ReleaseQualification.NoRecordForManyWheels` | scripts/build_release_candidate_qualification.py:50-63 | two or more wheels, or only empty ones, stop every record build |
| `ReleaseQualification.ChainRoundTrip` | scripts/build_release_candidate_qualification.py:67-209 | from any accepted distribution, records built on the three Pythons in any order qualify, with the distribution's one wheel as result |
| `ReleaseRecords.QualifiesIff` | scripts/build_release_candidate_qualification.py:116-184 | a verdict is given exactly for tag and full SHA in form and the three records of one wheel with a digest and a positive size, each equal to the written-out record to the last field |
| `ReleaseRecords.OneRecordChanged` | scripts/build_release_candidate_qualification.py:131-184 | replacing any one record of a qualifying list by any other record, whichever field differs, is refused |
| `ReleaseRecords.WheelReadIff` | scripts/build_release_candidate_qualification.py:40-64 | from any manifest a wheel is read exactly when schema, commit and its only wheel row are right, and it is that row |
| `ReleaseRecords.RecordBuiltIff` | scripts/build_release_candidate_qualification.py:67-113 | from any manifest a record is built exactly on a supported Python that runs, with matching tag, the three evidence files and a readable wheel, and it is the written-out record |
| `ReleaseRecords.ReleaseTagIff` | scripts/build_release_distribution_manifest.py:10-22 | release tags are `v` and three numbers with dots between them |
| `ReleaseRecords.HexMeans` | scripts/build_release_candidate_qualification.py:16-17 | digests and commits consist of the ten digits and the six small letters |
| `ReleaseRecords.ManifestIff` | scripts/build_release_distribution_manifest.py:15-49 | a manifest is built exactly with a release tag of the version, a full SHA, a wheel and a source archive |
| `ReleaseRecords.ManifestContent` | scripts/build_release_distribution_manifest.py:30-49 | the manifest lists every file as often as it is there, by name, digest and size, in the order of names |
| `Reporting.BuildSummary` | scripts/build_portfolio_scorecard.py:95-129 | counting over the sorted rows gives the totals counted over the records, and the rows are a stable sort by tier and identifier |
| `Reporting.SnapshotValidatesIff` | scripts/check_top_tier_reporting_contract.py:25-87 | for any portfolio, its own snapshot passes exactly when the declared count is the number of rows and the week ending is aligned |
| `Reporting.BuiltReportsAgree` | scripts/check_top_tier_reporting_contract.py:25-87 | the snapshot of a built scorecard always exists and passes exactly when there is nothing to align or the week ending is the window end |
| `Reporting.MisalignedWeek` | scripts/check_top_tier_reporting_contract.py:67-74 | a snapshot for another week than the window end of a non-empty scorecard is refused |
| `Reporting.OnboardingIsLowRiskShare` | scripts/build_kpi_weekly_snapshot.py:36-103 | tiers add up to the total, the failure rate is at most the high-risk share, and the onboarding rate is the low-risk share |
| `Reporting.RiskNeverFalls` | scripts/build_portfolio_scorecard.py:56-66 | for any step counts, losing a check or failing more steps lowers the tier exactly when a negative count rises to zero with every check passed; high is exactly a failed release gate or more than one failed step, low exactly release confidence |
| `Reporting.NegativeStepsFall` | scripts/build_portfolio_scorecard.py:56-66 | a count of minus one is medium risk and zero is low |
| `Reporting.AcceptedShare` | scripts/check_top_tier_reporting_contract.py:40-51 | any accepted onboarding rate is within 0.015 points of the exact share of confident rows |
| `Reporting.SnapshotDeterminesConfidence` | scripts/check_top_tier_reporting_contract.py:25-65 | a snapshot accepted against two portfolios forces equal sizes and, up to 3333 rows, equal numbers of confident rows |
| `Reporting.SnapshotIgnoresOrder` | scripts/build_portfolio_scorecard.py:95-129 | the order of the records changes no total, no sort key and no metric |
| `ReportingContent.SummaryMeans` | scripts/build_portfolio_scorecard.py:56-129 | the tiers count the records with a failed release gate or two failed steps, those that passed everything, and the rest; the failure rate is the share of failed release gates to the nearest hundredth |
| `ReportingContent.RowsMean` | scripts/build_portfolio_scorecard.py:69-105 | every row occurs exactly as often as records say what it says, with identifier, name or `unknown-repo`, and rows stand in the order of tier and identifier |
| `ReportingContent.KpiMeans` | scripts/build_kpi_weekly_snapshot.py:26-103 | a snapshot of declared or default totals has exactly six metrics, each with its value, sample size and unit |
| `ReportingContent.NullTotals` | scripts/check_top_tier_reporting_contract.py:25-52 | with a null total nothing is built and nothing passes |
| `ReportingContent.ValidateIff` | scripts/check_top_tier_reporting_contract.py:25-87 | a snapshot passes exactly when the declared count, the three keys, both rates within a hundredth, the sample size and the week agree with the portfolio |
| `Adoption.LoadHistorySeries` | scripts/adoption_scorecard.py:32-55 | the loop keeps one score for each usable entry, clamped to 0..100 |
| `Adoption.GradesInRange` | scripts/adoption_scorecard.py:103-153 | for any evidence all four grades lie in 0..100, and the release grade is never below 4 |
| `Adoption.GradesFollowChecks` | scripts/adoption_scorecard.py:103-153 | the release grade is at least 64 with a passed gate and at most 40 without, full exactly with a rise of 20 as well, and the other checks decide the half of their scale |
| `Adoption.PassRateOrder` | scripts/adoption_scorecard.py:138-144 | a higher pass rate scores lower exactly when it crosses one without reaching the percentage of the lower one, as from 1.0 to 1.5 |
| `Adoption.NormalizedTotal` | scripts/adoption_scorecard.py:74-78 | normalised weights sum to one for any weights, fallback included |
| `Adoption.EmittedWeightsTotal` | scripts/adoption_scorecard.py:74-78 | the four-decimal weights sum to one within 0.0002 |
| `Adoption.EmittedWeightsBoundIsTight` | scripts/adoption_scorecard.py:74-78 | weights for which the deviation is exactly 0.0002 |
| `Adoption.AverageIff` | scripts/adoption_scorecard.py:154-163 | for all evidence the score lies between the smallest and largest grade exactly when the negative normalised weights sum to at most 1/200 |
| `Adoption.HeavyDebitOvershoots` | scripts/adoption_scorecard.py:154-163 | beyond that bound concrete evidence pushes the score outside its grades |
| `Adoption.NonNegativeAverages` | scripts/adoption_scorecard.py:154-163 | with non-negative weights the score is between its grades and in 0..100 |
| `Adoption.ScoreMonotone` | scripts/adoption_scorecard.py:154-163 | with non-negative weights better grades never lower the score |
| `Adoption.BandOfAgreeingGrades` | scripts/adoption_scorecard.py:154-165 | with non-negative weights, grades that all lie in one band give a score in that band |
| `Adoption.PointsInRange` | scripts/adoption_scorecard.py:103-166 | dimension points lie in 0..25 |
| `Adoption.Validate` | scripts/check_adoption_scorecard_v2_contract.py:11-42 | the contract raises exactly on unreadable payloads, otherwise its errors are the findings that apply, in the order of the checks and each once, and it is silent exactly on conforming payloads |
| `Adoption.FindingListed` | scripts/check_adoption_scorecard_v2_contract.py:11-42 | the ordered list of possible findings leaves none out |
| `Adoption.NoFindingsConforms` | scripts/check_adoption_scorecard_v2_contract.py:11-42 | a readable payload has no finding exactly when version, keys, objects, dimensions and weight sum are right |
| `Adoption.BuiltScorecardConforms` | scripts/check_adoption_scorecard_v2_contract.py:11-42 | every built scorecard, for any evidence and weights, conforms to the contract |
| `AdoptionGrades.OnboardingMeans` | scripts/adoption_scorecard.py:103-112 | the onboarding grade is half freshness, which falls evenly from age zero to the stale age, and half the check |
| `AdoptionGrades.ReleaseMeans` | scripts/adoption_scorecard.py:58-115 | the release grade is 60 for a passed gate plus 40, 30, 16 or 4 by the change over the window, and 20 without history |
| `AdoptionGrades.OpsMeans` | scripts/adoption_scorecard.py:117-131 | the ops grade is half density, ten points a command, and half reduction, full at half of the baseline and nothing at one and a half times of it |
| `AdoptionGrades.QualityMeans` | scripts/adoption_scorecard.py:133-144 | the quality grade is half the drift check and half the tests, by rate, percentage or flag |
| `AdoptionGrades.SeriesMeans` | scripts/adoption_scorecard.py:32-55 | the history has one number for each usable entry, each being what an entry is worth within 0..100 |
| `AdoptionGrades.ScoreMeans` | scripts/adoption_scorecard.py:152-154 | the score is the sum of the grades, each times its own weight, divided by the sum of the weights and rounded, and the mean of the grades without a positive sum |
| `AdoptionGrades.WeightsMean` | scripts/adoption_scorecard.py:74-170 | each emitted weight is within 0.00005 of its own share |
| `AdoptionGrades.CardMeans` | scripts/adoption_scorecard.py:155-169 | dimension points are quarters of their own grades, and the band follows from the score |
| `AdoptionGrades.ConformsMeans` | scripts/check_adoption_scorecard_v2_contract.py:11-42 | the contract accepts exactly version 2 with six keys, four complete objects and four weights that sum to one within a thousandth |
| `Ordering.SortIsStable` | scripts/build_owner_escalation_payload.py:145-145 | the modelled `sorted` is ordered by its key and keeps the order of equal keys |
| `Ordering.StableSortIsSort` | scripts/build_owner_escalation_payload.py:145-145 | any stable sort of the same list gives the same result |
| `Ordering.SortAppend` | scripts/build_owner_escalation_payload.py:317-320 | sorting a sorted list with one element appended equals sorting the original list with it appended |
| `Rounding.RoundNearest` | scripts/adoption_scorecard.py:28-29 | rounding moves a number by at most one half |
| `Rounding.RoundMonotone` | scripts/adoption_scorecard.py:28-29 | rounding keeps the order of numbers |
| `Rounding.TieEven` | scripts/adoption_scorecard.py:28-29 | a number halfway between two integers is rounded to the even one |

## Left out

* Regular-expression engines, YAML loading and the Python parser: action lines, write scopes, triggers, proof signatures and syntax trees are given as parsed fields; digits in a release tag are the ASCII ones.
* Command-line parsing, JSON and Markdown writing, subprocesses, timestamps and directory creation.
* The many scripts that only look for text snippets, and those whose logic lives in the `sdetkit` package.
* Floating-point representation error and NaN: arithmetic is exact.
* The text of violations is replaced by constructors, and the details of postcheck rows are given; the breach text is modelled, with `:.2f` on exact numbers.
* Null or non-numeric fields of the threshold file, on which the escalation script raises: they are taken as missing.
* Budgets and targets that are no integers count as missing; budgets are keyed by the metric they bound instead of by their JSON name.
* The order of rows within one directory listing is the order of names; nested directories are not modelled.
* Extraction and ordering of suggestions and follow-up plans: both are given lists.
* Permission summaries and the printed per-job records of the overlap report. Case folding and the text of a trigger tuple are parameters, and a missing display name has already been replaced by the file stem.
* Extra fields of scenario rows (status, phase, mode, signal), and how event slugs and domains are derived from artifact text.
* The history file's own load errors and any history limit other than twenty.
* Lists of lists in `failed_steps` count as unsortable, and a textual doctor return code as raising.
* The median remediation time, and KPIs of the powerfuel baseline other than trigger overlap.
* Loading of portfolio records from JSON or JSON lines, and the team, lane and timestamp columns.
* The signals section of the adoption scorecard is present but its values are not modelled.
* Adoption.ScoreMonotone: compares grades, because a better pass rate can lower its grade (`Adoption.PassRateOrder`).
* SummaryPolling.PollSummary: the clock is read once for each poll and advances by at least the pause between two reads; time spent loading is part of that advance.
* Reporting.BuildSummary: gate flags are booleans and step counts integers already; a missing identifier and an empty one are alike, as they are for the code.

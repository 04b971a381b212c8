# ToolHub, verified

ToolHub is a gateway that runs side-effecting tools on behalf of a run, records every call as evidence
(a request document, a response document, a database row with a hash of both) and replays an earlier
call when the same idempotency key comes again. This project models its logic in Dafny and proves what
it promises, over histories and over its small text languages.

| module | models |
|---|---|
| `Store`, `Protocol`, `ProtocolProofs`, `ProtocolLaws` | files, artifact rows and tool-call rows, and issue requests, single and batch, as a step machine: any number interleave, any write may fail, a request may stop for ever at any point |
| `Audit`, `ServiceRefinement`, `BatchRefinement` | the audit service as a class whose methods perform the writes in order; the machine's steps compose to its records, its replays and the batch loop |
| `IssueExchange` | what the issue handlers store, and what a replay decodes from it |
| `Batch` | the batch handler's loop in strict and partial mode, and sequences of retries |
| `IssueKey`, `Json`, `Hash` | the idempotency key: canonical payload, encoder, hash |
| `Paths`, `PathPolicy`, `ArtifactPath` | path cleaning as a component stack, the two normalisers, the path policy, the artifact path guard |
| `CommandLine`, `CommandGrammar`, `Semaphore` | the command-line splitter and its validator; the language of command lines, told without the scanner; the slots around QA runs |
| `Patch` | the patch generator, with the parser and applier it should satisfy |
| `Git`, `CodeOps`, `RunnerProofs` | local, remote and tracking branches, HEAD, index and work tree; the runner's plan, execution and rollback |
| `Repair`, `Telemetry` | the repair loop and its counters |
| `Migrate` | the migration runner over failed and restarted starts |
| `GitHubClient` | the retry loop of issue creation and the paging of file lists |
| `Text`, `Wrappers` | strings, optional values, error returns |

Where the original changes state step by step, a class or a loop does so here, and its contract ties the
new state to a function of the old; the laws are then proved about that function. Failures of the
environment are parameters (`SaveEnv`, `RecordEnv`, `ItemEnv`, `Fate`, `Server`): every lemma holds for all
of them.

Assumptions: SHA-256 is an ideal hash (equal digests have equal inputs); identifiers are drawn fresh from a
counter, and run and artifact identifiers are plain path components made by the server; a database statement is atomic and an error means no effect, except that a failing commit of a
migration may have taken effect; one code operation uses a work tree at a time and QA commands leave it
alone; Unix path rules; strings of Unicode scalar values.

Where the code and what is written about it part, the code is followed:

- A call recorded over HTTP is replayed, over either transport, as an empty issue: the HTTP handlers store a
  wrapper object, and every replay decodes the stored document as an issue. HTTP and MCP share tool names and
  derived keys, so an HTTP replay of a call recorded over MCP hands back the issue
  (`IssueExchange.HttpReplayLosesIssue`, `Batch.RetryReportsTheIssue`; exactly when,
  `IssueExchange.ReplayFaithful`).
- A dry run records an ok row under the key of the real call, which it then shadows
  (`Batch.DryRunShadowsTheRealCall`).
- `created_fresh` counts failed items (`Batch.FailureReportedAsCreated`, `Batch.CreatedFreshIsExact`).
- Under the base directories `.` and `/` saved artifacts cannot be read
  (`ArtifactPath.ReadsRefusedUnderDot`, `ArtifactPath.ReadFindsWhatSaveWrote`).
- A validated command line can still yield a token `&&`
  (`CommandLine.TwoCharacterOperatorSlipsThrough`; exactly when, `CommandLine.OperatorsAreAssembled`); tokens are passed to
  the program as arguments, not to a shell.
- An escaped blank at the end of a command line is lost and the line refused
  (`CommandGrammar.EscapedBlankAtTheEndFails`), since the line is trimmed before it is scanned.
- A text of one empty line has no content lines (`Patch.SplitLinesMeaning`).
- A change staged before the call is swept into the commit (`RunnerProofs.StagedChangeIsSwept`,
  `RunnerProofs.CommitIsOverlay`).
- A successful rollback removes the head branch from the remote even if it was there before, and keeps a local
  base branch it found only at the remote (`RunnerProofs.RollbackTakesRemoteHead`,
  `RunnerProofs.RollbackKeepsLocalBase`; exactly when, `RunnerProofs.RollbackRestores`).
- The branch handler counts a failed execution twice, the repair loop not at all
  (`Repair.CountersEqualHistory`).
- A retried issue creation whose response was lost creates two issues
  (`GitHubClient.LostResponseCreatesTwo`; one is sure exactly as `GitHubClient.AtMostOneIssueForSure` says); `Protocol` and `Batch` take one
  `CreateIssue` call as one step with one outcome.
- Strict and partial mode also agree when only the last item fails, so the condition in `Batch.ModesAgree` is
  weaker than no failure at all.

## Model

| member | source | states |
|---|---|---|
| `ProtocolLaws.OutcomesConserved` | toolhub/internal/core/audit.go:49-143 | in every reachable state of any interleaving of single and batch requests with any write failing, per run, tool and key: ok or dry-run outcomes = ok rows + records lost after such an outcome + outcomes still being recorded, and there is at most one ok row |
| `ProtocolLaws.CreatedAtMostOnce` | toolhub/internal/db/migrations/001_init.sql:34-36 | in every reachable state, whatever has crashed where, a slot's issue was created at most once plus once per record lost after a success plus once per success still being recorded |
| `ProtocolLaws.CreatedOnceWhenRecorded` | toolhub/internal/db/migrations/001_init.sql:34-36 | at most once where every record of a success was completed |
| `ProtocolLaws.NoCreationAfterRecord` | toolhub/internal/http/server.go:1494-1518 | a lookup that comes after a recorded success of its slot sees it, and the item of a lookup that saw an ok row never starts a creation |
| `ProtocolLaws.LookupsComeFirst` | toolhub/internal/http/server.go:1309-1331 | in every reachable state each start of a creation, dry run and answer of GitHub is for the slot of its request's item and comes after a lookup of that slot, by the same request for the same item, that saw no ok row |
| `ProtocolLaws.LateRequestsCreateNothing` | toolhub/internal/http/server.go:1494-1518 | a request that arrives after a success was recorded for a slot never has GitHub create for that slot |
| `ProtocolLaws.ArrivalWaits` | toolhub/internal/http/server.go:1285-1310 | a request for a known run with anything to do is taken in and starts with the lookup of its first item; any other changes nothing |
| `ProtocolLaws.EvidenceSoundAndAppendOnly` | toolhub/internal/core/audit.go:54-122 | at every cut point each artifact row has its file with matching hash and size and each call its own run's two documents under its evidence hash; no later event changes or removes any of them |
| `ProtocolLaws.EvidencePinsBothDocuments` | toolhub/internal/core/audit.go:104 | although the evidence hash runs two documents together without a separator, calls with equal evidence have equal request and equal response documents |
| `ProtocolLaws.ReplayReturnsRecordedResponse` | toolhub/internal/core/audit.go:124-144 | whatever interleaves, a replay returns byte for byte the response document of the one ok row of its slot |
| `ProtocolProofs.EvidenceAlways` | toolhub/internal/core/artifact.go:42-82 | the inductive invariant: sound storage, every request's progress backed by it, no two requests owning one file |
| `Store.OkRowIsTheOne` | toolhub/internal/db/db.go:224-241 | where the unique index holds, the newest-first lookup finds precisely the slot's ok row |
| `Store.LookupFindsNewest` | toolhub/internal/db/db.go:224-233 | a lookup finds the newest row of this run, tool and key that is ok, and nothing when there is none |
| `Store.InsertCallKeepsBacked` | toolhub/internal/db/migrations/001_init.sql:19-36 | an insert the keys and the index allow keeps every row backed and at most one ok row a slot |
| `ServiceRefinement.MachineRefinesService` | toolhub/internal/core/audit.go:49-122 | in every reachable system, for every request about to record and every way its writes may fare, the machine has a continuation in which only that request moves and which leaves exactly the storage, verdict and row of the service's Record |
| `ServiceRefinement.ReplayAlone` | toolhub/internal/core/audit.go:146-192 | a request of the machine that looks up and replays alone ends as the service's replay: not found, failed (an undecodable document included), refused for a different request document, or answered with the stored response |
| `BatchRefinement.MachineRefinesBatch` | toolhub/internal/http/server.go:1484-1574 | in every reachable system, for every batch call on a known run and every environment, the machine has a continuation in which the call's request arrives, only it moves, and which ends with the storage and verdict of the handler's loop and a log grown by exactly the creations the loop leaves at GitHub |
| `BatchRefinement.SameIssues` | toolhub/internal/http/server.go:1513-1537 | one by one, what the log and what GitHub list as created are of the same item and issue |
| `BatchRefinement.RetriesOnTheMachine` | toolhub/internal/http/server.go:1484-1541 | retries of one batch, over whatever transports, can arrive and be run by the machine in any reachable system: the log counts as many creations of an item as it gained ok rows, at most one |
| `IssueExchange.ReplayedIssue` | toolhub/internal/http/server.go:1306-1312 | the issue a replay hands back, whichever transport asks, for every request and outcome: the created one if the call was recorded over MCP, an empty one if it was recorded over HTTP or was a dry run |
| `IssueExchange.ReplayFaithful` | toolhub/internal/mcp/server.go:506-529 | a replay hands back the created issue exactly when the call was recorded over MCP, or when that issue was empty |
| `IssueExchange.HttpReplayLosesIssue` | toolhub/internal/http/server.go:1353-1361 | a concrete issue that is lost by recording it over HTTP, because a wrapper is stored and decoded as an issue |
| `Audit.SaveOutcome` | toolhub/internal/core/artifact.go:42-82 | a save stores the whole document exactly when no step fails and the run exists; otherwise it adds no row, and either way nothing recorded changes |
| `Audit.FailedSaveLeavesNoFile` | toolhub/internal/core/artifact.go:62-80 | a failed save whose clean-up works leaves only a spent identifier |
| `Audit.RecordKeepsSound` | toolhub/internal/core/audit.go:49-122 | whatever fails wherever, Record keeps the storage sound and append-only |
| `Audit.RecordIsExact` | toolhub/internal/core/audit.go:49-122 | Record succeeds exactly when the tool is allowed, both documents encode, no save fails, the run exists and the row is neither refused nor a second ok row of its slot |
| `Audit.RecordAddsTheRow` | toolhub/internal/core/audit.go:84-121 | a successful Record adds one row with its status, key, document references and evidence hash, and stores request, response and extras under consecutive identifiers; a failed one adds no row |
| `Audit.RowsNameDocuments` | toolhub/internal/core/audit.go:69-97 | the rows of a recorded call's two documents carry run, name, hash, size and content type |
| `Audit.SaveFailureLeavesOrphans` | toolhub/internal/core/audit.go:69-97 | when the j-th save is the first to fail, the documents before it stay stored with no row referring to them |
| `Audit.InsertFailureLeavesOrphans` | toolhub/internal/core/audit.go:117-119 | when only the row is refused every document stays stored with no row |
| `Audit.RecordThenReplay` | toolhub/internal/core/audit.go:146-192 | after a keyed ok Record, whatever was recorded since, a replay finds that call and decodes its response; with a client-supplied key it conflicts exactly when the request document differs |
| `Audit.FailureIsNotReplayed` | toolhub/internal/db/db.go:224-233 | recording a failed outcome changes what no slot finds |
| `Audit.RecordKeepsValid` | toolhub/internal/core/audit.go:117-121 | tool_calls_total per tool and status stays equal to the rows inserted since the process started |
| `Audit.AuditService.Save` | toolhub/internal/core/artifact.go:42-82 | the writes in order leave storage and identifier exactly as the effect function of a save says |
| `Audit.AuditService.Record` | toolhub/internal/core/audit.go:49-122 | the writes in order leave storage and result exactly as the effect function says; a tool not on the allowlist is refused and changes nothing; the counters move only with a new row, the failure counter only with a failed save |
| `Audit.AuditService.Read` | toolhub/internal/core/artifact.go:99-116 | reading goes through the row and the path guard to the file's bytes |
| `Audit.GuardDecidesByBase` | toolhub/internal/core/artifact.go:141-148 | on plain identifiers, as the server draws them, the guard passes exactly when the base directory is neither the root nor the current directory |
| `Audit.AuditService.ReplayResponse` | toolhub/internal/core/audit.go:124-144 | the lookup, read and decode of a replay, with their errors |
| `Audit.AuditService.ReplayResponseWithRequestCheck` | toolhub/internal/core/audit.go:146-192 | the same with the comparison of request documents and its conflict |
| `Batch.EveryAttemptCounted` | toolhub/internal/http/server.go:1479-1597 | processed = replayed + failed + fresh + dry-run items at every loop head |
| `Batch.StatusMeaning` | toolhub/internal/core/batch_status.go:3-11 | ok means none failed, fail that something failed and nothing but replays succeeded, partial that something failed and something succeeded afresh |
| `Batch.CreatedFreshIsExact` | toolhub/internal/http/server.go:1566 | created_fresh is the number of items that succeeded afresh exactly when nothing failed |
| `Batch.FailureReportedAsCreated` | toolhub/internal/http/server.go:1593 | a concrete batch whose failed item is reported as created |
| `Batch.PassUnique` | toolhub/internal/http/server.go:1484-1574 | rows and answers determine the pass |
| `Batch.ModesAgree` | toolhub/internal/mcp/server.go:661-684 | strict results are a prefix of partial ones, and equal exactly when no item before the last fails |
| `Batch.CreatedAtMostOnce` | toolhub/internal/http/server.go:1484-1541 | over any sequence of retries without a storage failure each item is created at most once, and once exactly when it gained its ok row |
| `Batch.RetriesOnlyProgress` | toolhub/internal/http/server.go:1556-1571 | unless the mode was tightened a later retry gets at least as far, so stopped_at never decreases, and replays every item that succeeded before |
| `Batch.CleanRetryCompletes` | toolhub/internal/http/server.go:1484-1541 | after the first retry without a failure every item has its row, each was created exactly once, and everything is replayed from then on |
| `Batch.DryRunShadowsTheRealCall` | toolhub/internal/http/server.go:1513-1537 | after a dry run the real call replays every item and creates nothing |
| `Batch.ItemRows` | toolhub/internal/http/server.go:1488-1541 | one turn of the loop gives an item its ok row exactly when it reports a fresh success or a dry run, and no other item |
| `Batch.RecordedItemReplayable` | toolhub/internal/mcp/server.go:616-634 | what the handler records over either transport it can replay |
| `Batch.BatchKeepsSound` | toolhub/internal/http/server.go:1484-1574 | whatever the environment does a call keeps the storage sound, append-only and the batch replayable, and breaks off only on a storage fault |
| `Batch.BatchCompletes` | toolhub/internal/http/server.go:1479-1597 | a completed call is one pass decided by the rows it started from; just the items that succeed gain a row, GitHub creates just the fresh ones, the answer reports the pass with result i carrying index i, and a replayed item carries the issue its ok row's document decodes to |
| `Batch.BatchReportsIssues` | toolhub/internal/http/server.go:1488-1511 | in any call, completed or broken off, replayed items report the issue of their ok row; afterwards a fresh success replays the created issue over MCP and an empty one over HTTP, every other item what it did before |
| `Batch.RetryReportsTheIssue` | toolhub/internal/mcp/server.go:616-634 | an item created in one call and reached by a later one is replayed there, whichever transports the two came over, and reports the very issue that was created if it was created over MCP, an empty one if over HTTP |
| `Batch.BatchBreaksOff` | toolhub/internal/http/server.go:1537-1541 | a call broken off at item i treated the items before it as in a pass, and only GitHub may know of item i |
| `Batch.RetriesOnTheStorage` | toolhub/internal/http/server.go:1484-1597 | retries of the handler on real storage, over either transport, are retries in the sense above; afterwards an item has exactly one ok row or none, and was created as often as it gained one |
| `Batch.ProcessItem` | toolhub/internal/http/server.go:1484-1554 | one turn of the loop leaves storage and GitHub as its effect function says |
| `Batch.RequestDocumentInverts` | toolhub/internal/github/client.go:214-218 | title, body and labels of an item can be read back from its request document |
| `Batch.StoredRequestReads` | toolhub/internal/http/server.go:1529-1537 | the request document stored with a recorded item reads as that item |
| `Batch.HandleBatch` | toolhub/internal/http/server.go:1436-1597 | a call for an unknown run, with a tool not on the allowlist, with no items or more than 50 is refused with the first of these errors and changes nothing; any other leaves storage, GitHub, counters and results exactly as the loop function says |
| `IssueKey.KeyIdentifiesIssue` | toolhub/internal/core/issue.go:54-77 | two requests get one key exactly when run, tool, trimmed title, body, optional index and the multiset of trimmed labels agree |
| `IssueKey.SortedListingUnique` | toolhub/internal/core/issue.go:55-59 | a multiset of labels has one sorted listing |
| `IssueKey.LexMeaning` | toolhub/internal/core/issue.go:59 | the order the labels are sorted in: a text comes first when it starts the other or is smaller where they first differ |
| `IssueKey.BatchKeysDistinct` | toolhub/internal/http/server.go:1486-1487 | keys of one batch are pairwise distinct, even for equal items, and differ from every single-issue key |
| `IssueKey.MakeIssueIdempotencyKey` | toolhub/internal/core/issue.go:54-77 | the loop, sort and encoding compute the key function |
| `Json.ParseEncode` | toolhub/internal/core/issue.go:70-73 | a parser undoes the encoder on every value |
| `Json.EncodeInjective` | toolhub/internal/core/issue.go:70-76 | different values have different encodings |
| `Json.ConcatenationInjective` | toolhub/internal/core/audit.go:104 | two encodings run together can be told apart when the first is an object |
| `Json.NumbersRunTogether` | toolhub/internal/core/audit.go:104 | without that proviso they cannot: a concrete pair |
| `Paths.CleanIdempotent` | toolhub/internal/core/policy.go:159 | cleaning twice is cleaning once |
| `Paths.CleanPreservesMeaning` | toolhub/internal/core/policy.go:159 | a cleaned path leads where the raw one does, from every directory |
| `Paths.CleanDecidesMeaning` | toolhub/internal/core/policy.go:159 | two relative paths clean to the same text exactly when they lead to the same place from every directory |
| `PathPolicy.CanonicalizeIsWalk` | toolhub/internal/core/policy.go:153-171 | the string manipulation computes the component walk: traversal exactly when a prefix climbs above the root, absolute paths clamped |
| `PathPolicy.CanonicalComponents` | toolhub/internal/core/policy.go:150-171 | every accepted non-empty result has only plain components and names the node the walk reaches |
| `PathPolicy.NormalisersAgree` | toolhub/internal/codeops/runner.go:190-210 | the runner accepts a path as p exactly when the policy's canonical path is p and the runner's start-of-path tests pass |
| `PathPolicy.CheckPathMeaning` | toolhub/internal/core/policy.go:62-80 | a path passes exactly when it has a canonical form no forbidden prefix matches; which violation otherwise |
| `PathPolicy.FirstViolationNone` | toolhub/internal/core/policy.go:62-80 | a request passes exactly when each of its paths does |
| `PathPolicy.FirstViolationSome` | toolhub/internal/core/policy.go:62-80 | a refused request is refused for its first offending path |
| `PathPolicy.WrittenPathsAreAllowed` | toolhub/internal/http/server.go:817-844 | the path the runner writes is the canonical path the policy checked, and no forbidden prefix matches it |
| `PathPolicy.BuiltinMeaning` | toolhub/internal/core/policy.go:17-22 | the built-in prefixes forbid exactly the nodes under three directories and the environment file with its dotted variants |
| `PathPolicy.PlainPrefixMeaning` | toolhub/internal/core/policy.go:132-140 | a prefix that neither ends with a slash nor starts with a dot forbids what its text starts |
| `PathPolicy.BuiltinsAlwaysEnforced` | toolhub/internal/core/policy.go:35-38 | no configuration weakens the built-in protection |
| `PathPolicy.DefaultPolicyIsExact` | toolhub/internal/core/policy.go:26-33 | with no configuration exactly the unwalkable paths and the protected nodes are refused |
| `PathPolicy.ParsePrefixesCSV` | toolhub/internal/core/policy.go:108-117 | the loop yields the normalised non-empty items in order |
| `PathPolicy.MergeUniquePrefixes` | toolhub/internal/core/policy.go:119-130 | the loop yields first occurrences in order |
| `PathPolicy.AllowListMeaning` | toolhub/internal/core/policy.go:97-106 | a comma-separated list allows exactly the names it lists, with or without white space around them |
| `PathPolicy.NormalizePrefixMeaning` | toolhub/internal/core/policy.go:144-149 | white space around a configured prefix and one leading ./ and / are dropped |
| `PathPolicy.ConfiguredPrefixesMeaning` | toolhub/internal/core/policy.go:108-117 | a configured list stands for the prefixes written in it, in order, empty ones left out |
| `PathPolicy.Policy.SetPathPolicy` | toolhub/internal/core/policy.go:35-38 | the built-ins head the forbidden list, which has no repeats |
| `PathPolicy.Policy.CheckPaths` | toolhub/internal/core/policy.go:62-80 | the loop finds the first violation |
| `PathPolicy.Policy.RequiresApproval` | toolhub/internal/core/policy.go:82-95 | approval is needed exactly when some path has no canonical form or its canonical form starts with an approval prefix |
| `ArtifactPath.SafePathIsContainment` | toolhub/internal/core/artifact.go:141-148 | the guard accepts exactly the paths whose normal form lies strictly below that of a non-trivial base |
| `ArtifactPath.SafePathStaysBelow` | toolhub/internal/core/artifact.go:141-148 | what it accepts is a chain of plain components below the base |
| `ArtifactPath.ReadFindsWhatSaveWrote` | toolhub/internal/core/artifact.go:99-115 | a saved file can be read back exactly when the base directory is neither the root nor the current directory |
| `ArtifactPath.ReadsRefusedUnderDot` | toolhub/internal/core/artifact.go:144-146 | the two base directories under which every read is refused |
| `ArtifactPath.SavePathInjective` | toolhub/internal/core/artifact.go:44-49 | different artifacts never share a file |
| `CommandLine.SplitCommandLine` | toolhub/internal/qa/runner.go:344-397 | the scanner loop computes the token function, errors included |
| `CommandGrammar.SplitMeaning` | toolhub/internal/qa/runner.go:344-397 | in full: a line splits into these words exactly when it can be written as plain and escaped characters, single- and double-quoted texts and gaps that stand for them; a line that cannot is an error |
| `CommandGrammar.AnyStyleInverts` | toolhub/internal/qa/runner.go:344-397 | words printed in single quotes, double quotes or behind backslashes, the style chosen word by word, with blanks or tabs between, are split back into the words without the empty ones |
| `CommandGrammar.OpenLinesFail` | toolhub/internal/qa/runner.go:388-393 | a line left inside either quote or after a backslash is an error |
| `CommandGrammar.EscapedBlankAtTheEndFails` | toolhub/internal/qa/runner.go:345 | an escaped blank at the end of a line is trimmed away and leaves the backslash open |
| `CommandLine.TokensInvertPrint` | toolhub/internal/qa/runner.go:344-397 | the splitter inverts the quoting printer on every list, dropping empty strings, never failing |
| `CommandLine.TokensCompose` | toolhub/internal/qa/runner.go:344-397 | two tight lines that split on their own split together into the concatenation |
| `CommandLine.TokensAreSubsequence` | toolhub/internal/qa/runner.go:344-397 | the tokens run together are a subsequence of the line |
| `CommandLine.ValidatedTokensAreClean` | toolhub/internal/qa/runner.go:330-342 | a validated line yields no token with a one-character shell operator |
| `CommandLine.TwoCharacterOperatorSlipsThrough` | toolhub/internal/qa/runner.go:335 | a validated line whose token is a two-character operator, assembled by quoting |
| `CommandLine.TokenPairs` | toolhub/internal/qa/runner.go:344-397 | for every line that splits, two characters stand next to each other in some token exactly when the line holds them in this order, both written, with nothing but silent characters between |
| `CommandLine.OperatorsAreAssembled` | toolhub/internal/qa/runner.go:330-397 | a validated line yields a token with a shell operator exactly when the scanner writes & and &, or $ and (, with only silent characters between |
| `CommandLine.UnquotedTokensAreClean` | toolhub/internal/qa/runner.go:330-342 | without quotes and escapes a validated line splits and no token holds any operator |
| `CommandLine.PrintedCommandIsAccepted` | toolhub/internal/qa/runner.go:191-206 | a printed non-empty argument vector without empty elements is accepted exactly when its first element is an allowed executable and no element holds an operator, and it splits into precisely that vector |
| `Patch.SplitLinesForgets` | toolhub/internal/core/patch.go:42-52 | splitting forgets line-end style and one final newline, and nothing else |
| `Patch.SplitLinesMeaning` | toolhub/internal/core/patch.go:42-52 | whatever each line ends with, and with or without an unfinished last line, splitting gives the lines; one empty line alone counts as none |
| `Patch.CleanPathMeaning` | toolhub/internal/core/patch.go:9-13 | white space around the path and one leading ./ are dropped; nothing left means unknown.txt |
| `Patch.GenerateUnifiedDiff` | toolhub/internal/core/patch.go:8-36 | the builder loops write the patch text function |
| `Patch.CombinedPatchRoundTrip` | toolhub/internal/http/server.go:680-684 | a count-driven parser recovers each clean path, original lines and modified lines from the joined patches |
| `Patch.PatchTransforms` | toolhub/internal/core/patch.go:8-36 | a patch parses back, and applied to the original's lines gives the modified's |
| `Patch.LineDeltaCounted` | toolhub/internal/http/server.go:573-574 | plus-lines minus minus-lines is the reported line_delta |
| `CodeOps.PlanCommands` | toolhub/internal/codeops/runner.go:76-93 | the reported plan is built up to the first unsafe path, and otherwise shows the whole plan |
| `CodeOps.Execute` | toolhub/internal/codeops/runner.go:57-136 | the commands that took effect are the plan on success and a prefix of it on failure; refused requests, unsafe paths and dry runs touch nothing |
| `CodeOps.RollbackBranch` | toolhub/internal/codeops/runner.go:138-177 | back to base, then both deletions whether or not the first works |
| `CodeOps.ValidateBranch` | toolhub/internal/codeops/runner.go:179-188 | the loop decides the branch-name rule |
| `CodeOps.BranchNames` | toolhub/internal/codeops/runner.go:178-188 | trimmed, an accepted name holds letters, digits and ._/- alone, does not start with a dash and has no two dots in a row |
| `RunnerProofs.RefusedRequests` | toolhub/internal/codeops/runner.go:57-89 | a request is refused for the first thing wrong with it, branch names, message, files, paths, and then nothing is touched |
| `RunnerProofs.ExecuteReportsItsCommit` | toolhub/internal/codeops/runner.go:95-136 | a success reports the commit that is head's, here and at the remote, on top of base's with the request's message; a dry run reports none |
| `RunnerProofs.ExecuteCommits` | toolhub/internal/codeops/runner.go:99-128 | a successful Execute puts one commit on top of base's on the new branch, here and at the remote, and moves no other branch but a base branch it had to create |
| `RunnerProofs.CommittedTree` | toolhub/internal/codeops/runner.go:106-125 | the committed tree, path by path, whether or not the push works: last write, else what was staged before, else base's content |
| `RunnerProofs.CommitIsOverlay` | toolhub/internal/codeops/runner.go:106-125 | the committed tree is base's overlaid with the files exactly when every path staged beforehand is among the files |
| `RunnerProofs.StagedChangeIsSwept` | toolhub/internal/codeops/runner.go:123 | a concrete staged change that ends up in the commit |
| `RunnerProofs.RollbackUndoesExecute` | toolhub/internal/codeops/runner.go:138-177 | from a clean tree, Execute and a successful rollback leave HEAD and trees at base and the branches as they were, but for a created base and the removed head |
| `RunnerProofs.RollbackRestores` | toolhub/internal/codeops/runner.go:138-177 | local branches are restored exactly when base was local, remote ones exactly when head was fresh there, everything exactly when base was checked out besides |
| `RunnerProofs.UndisturbedRollbackWorks` | toolhub/internal/codeops/runner.go:138-177 | after a successful Execute from a clean tree a rollback nothing interferes with succeeds |
| `RunnerProofs.RollbackTakesRemoteHead` | toolhub/internal/codeops/runner.go:168-171 | a concrete repository whose remote head branch is gone after Execute and rollback both succeed |
| `RunnerProofs.RollbackKeepsLocalBase` | toolhub/internal/codeops/runner.go:160-162 | a concrete repository that keeps a local base branch after Execute and rollback both succeed |
| `RunnerProofs.OnlyAllowedPathsTouched` | toolhub/internal/codeops/runner.go:106-121 | when the policy let a request through, whatever any run writes or stages is a canonical path it checked and no forbidden prefix matches |
| `Repair.RoundsShape` | toolhub/internal/http/server.go:869-909 | the rounds: at least one, at most max, only the last can pass, and it does if they are fewer than max |
| `Repair.RepairStarts` | toolhub/internal/http/server.go:755-837 | a call does anything at all exactly when its run exists, its tool is allowed, it asks for no more rounds than the cap, its approval is of this run, approved and for writing code, the policy accepts every path, and its step can be recorded |
| `Repair.RefusalReasons` | toolhub/internal/http/server.go:755-837 | a refused call is refused for the first of these it lacks |
| `Repair.RepairCommitsAllowed` | toolhub/internal/http/server.go:817-844 | from a clean tree whatever commit a call makes, pushed or not, kept or rolled back, differs from base's only at canonical paths of its request that no forbidden prefix matches |
| `Repair.TraceTellsAnswers` | toolhub/internal/http/server.go:838-953 | the trace tells the execution, the rounds and the pull request as the environment answered them |
| `Repair.ReportMeaning` | toolhub/internal/http/server.go:932-962 | the report counts the rounds, says whether one passed both checks, and tells failure unless a dry run or the pull request succeeded |
| `Repair.LabelsEqualHistory` | toolhub/internal/qa/runner.go:86-109 | each result counter grows by the rounds whose check ended in the way its label stands for |
| `Repair.RepairShape` | toolhub/internal/http/server.go:838-959 | a call that does anything executes once; a real one that executes runs 1 to max_iterations rounds within the cap, then exactly one of a pull request, if the last round passed, and a rollback, if not; a dry run or failed execution is followed by nothing |
| `Repair.PullRequestHasItsBranch` | toolhub/internal/http/server.go:939-953 | when a pull request is attempted its branch is at the remote, one commit on top of base |
| `Repair.FailedRepairRestores` | toolhub/internal/http/server.go:911-930 | checks that never pass and a rollback that works leave a clean repository as a rollback does |
| `Repair.CountersEqualHistory` | toolhub/internal/telemetry/metrics.go:87-112 | over any sequence of repair and branch requests test results, lint results and iterations all equal the rounds, rollbacks their completions, successes the pull requests; code_error is twice the failed branch executions |
| `Repair.RepairLoop` | toolhub/internal/http/server.go:787-953 | the handler leaves repository, counters and trace as the effect function says and reports what it did |
| `Repair.CountBranchExecution` | toolhub/internal/http/server.go:696-701 | the branch handler counts a failed execution twice |
| `Migrate.AlwaysAPrefix` | toolhub/internal/db/migrate.go:32-72 | whatever fails in whatever start, the versions are the names of the first n files and the schema is what their texts, run in order, make of the initial one |
| `Migrate.CommittedAtMostOnce` | toolhub/internal/db/migrate.go:35-44 | no version is committed twice |
| `Migrate.RestartsEqualOneRun` | toolhub/internal/db/migrate.go:16-75 | once a start succeeds the database is what one uninterrupted run leaves: all names, and the fold of all texts |
| `Migrate.StartIsExact` | toolhub/internal/db/migrate.go:32-72 | one start on the first n files succeeds exactly when no file is faulty; else the first faulty file ends it, and counts only if its commit failed and took effect |
| `Migrate.UndisturbedStartCompletes` | toolhub/internal/db/migrate.go:16-75 | any sequence of failures is repaired by one undisturbed start |
| `Migrate.Database.ApplyMigrations` | toolhub/internal/db/migrate.go:16-75 | the loop of transactions takes a database that holds the first n files to one that holds n or more, and on success all: their names and the fold of their texts |
| `Semaphore.Runner.Run` | toolhub/internal/qa/runner.go:208-247 | every way out of a call leaves the slots as found, the command holds exactly one, and without a slot nothing runs; with one and all checks passed the command's result is the answer, a failed check never is |
| `Semaphore.SlotsAlwaysMatch` | toolhub/internal/qa/runner.go:208-214 | at every point of every interleaving slots taken = callers between acquire and return, at most MaxConcurrency; each caller returned every slot but the one it holds |
| `Semaphore.NoDeadlock` | toolhub/internal/http/server.go:872-873 | while any caller has a call to make some caller can acquire or return a slot |
| `Semaphore.RunsEnd` | toolhub/internal/qa/runner.go:208-247 | callers take at most two steps a call, so every interleaving is finite |
| `GitHubClient.CreateIssue` | toolhub/internal/github/client.go:294-345 | 1 to 4 attempts, every one but the last retryable, the result of the last; a success reports one of 1 to attempts issues, the only one exactly when no retried POST took effect; an error hides none exactly when no POST did; a call that does not retry creates at most one |
| `GitHubClient.AtMostOneIssueForSure` | toolhub/internal/github/client.go:298-345 | whatever the server hides, at most one issue is sure exactly when the first reply asks for no retry or the wait after it fails |
| `GitHubClient.OneIssueACall` | toolhub/internal/github/client.go:298-339 | a call creates as many issues as it reports exactly when no POST of its attempts that it saw fail took effect |
| `GitHubClient.LostResponseCreatesTwo` | toolhub/internal/github/client.go:299-308 | a concrete call that creates two issues and reports one |
| `GitHubClient.ListPullRequestFiles` | toolhub/internal/github/client.go:397-429 | the pages put together are the first 1000 files, all of them exactly when there are no more; they are had exactly when every page up to the first short one, or the tenth, answers |

## Left out

- HTTP routing, JSON-RPC framing, response envelopes, logging and request identifiers: plumbing.
- JWT signing, installation tokens, wire formats of the GitHub calls, real process and Docker execution: foreign code, answered by the environment parameters.
- Back-off times, jitter and `Retry-After`: a wait either outlives its context or not.
- Steps, decisions and approvals as tables: the repair loop takes the approval it found as a parameter; its decision writes are best-effort and have no effect on the laws.
- `ValidateIssueInput`, `MapError`, `GenerateSummary`, `DeriveQAFailureCategory`, `truncateOutput`, profile and environment parsing: single-branch case tables.
- List endpoints and their filters; run creation and repository allow-list checks.
- Artifact URIs and `created_at` columns; the newest row is the one inserted last.
- Values that cannot be encoded reach `Record` only as a missing document.
- Request documents are compared as encoded; compaction of white space changes nothing on documents the service itself encoded.
- Case-insensitive matching of JSON member names, numbers other than integers, and invalid UTF-8.
- A per-item `dry_run` member in an HTTP batch item, which the loop ignores, is not part of the stored item document.
- MCP refuses an empty or oversized batch before it looks up the run; `Batch.HandleBatch` has the order of the HTTP handler.
- Sizes count characters of the stored text, not bytes of its encoding.
- A client-supplied key equal to a derived digest: the two kinds of key are kept apart.
- `sort.Strings` is modelled by its result, an insertion sort function whose output is proved sorted and a permutation.
- Ordering among simultaneous waits on the channel: any waiting caller may get a free slot.
- Planned commands are values, not the quoted text shown to the user; resolving the work directory cannot fail.
- Names that git would resolve to tags, commits or paths, ignored files, hooks, symbolic links, directories in the way of files: such a command fails or not by the fates.
- A file write that fails half-way is modelled as not having happened or as having happened in full.
- Two gateways migrating one database at the same time; sorting of the embedded file names, which the list parameter already has.

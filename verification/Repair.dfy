/** The repair loop: gate, execute, up to N rounds of checks, then a pull request or a rollback; and the
    branch-and-pull-request handler beside it. */
module Repair {
  import opened Wrappers
  import opened Git
  import opened CodeOps
  import opened RunnerProofs
  import opened Telemetry
  import PathPolicy

  // ---------- checks ----------

  datatype QACode = Timeout | ExecFailed | OtherCode
  datatype QAOutcome = NoError | QAError(code: QACode) | PlainError(exitCode: int)

  /** `DeriveStatus` of a real run followed by `MapQAStatusToMetric`. */
  function MetricOf(o: QAOutcome): Metric {
    match o
    case NoError => MetricPass
    case QAError(Timeout) => MetricTimeout
    case QAError(ExecFailed) => MetricFail
    case QAError(OtherCode) => MetricError
    case PlainError(exitCode) => if exitCode > 0 then MetricFail else MetricError
  }

  // ---------- what a call does ----------

  datatype Action =
    | ExecuteRun(ok: bool)
    | Round(test: QAOutcome, lint: QAOutcome)
    | RollbackRun(ok: bool)
    | PullRequest(ok: bool)

  predicate Passes(a: Action) { a.Round? && a.test == NoError && a.lint == NoError }

  datatype Approval = Approval(runID: string, status: string, scope: string)
  datatype RepairCall = RepairCall(runID: string, maxIterations: int, approvalID: string, req: Request)

  /** What the environment answers: whether the run exists and the tool is allowed, the approval found, the
      policy's prefixes, whether the step row can be written, the fates of the git commands, the result of
      round i, whether the pull request succeeds. */
  datatype RepairEnv = RepairEnv(runKnown: bool, toolAllowed: bool, approval: Option<Approval>, forbidden: seq<string>, stepOk: bool, executeFates: seq<Fate>,
                                 revOk: bool, rounds: seq<Action>, rollbackFates: seq<Fate>, prOk: bool)

  datatype Refusal = NoSuchRun | ToolForbidden | TooManyIterations | NoApprovalID | ApprovalNotFound | NotApproved | WrongScope | PathRefused | StepFailed

  /** `NewServer` replaces a cap that is not positive. */
  function Cap(configured: int): (cap: nat)
    ensures cap >= 1
  {
    if configured <= 0 then 3 else configured
  }

  function Iterations(requested: int, cap: nat): int {
    if requested <= 0 then cap else requested
  }

  predicate Blank(s: string) { Text.TrimSpace(s) == "" }

  function Gate(call: RepairCall, env: RepairEnv, cap: nat): Option<Refusal> {
    if !env.runKnown then Some(NoSuchRun)
    else if !env.toolAllowed then Some(ToolForbidden)
    else if Iterations(call.maxIterations, cap) > cap then Some(TooManyIterations)
    else if Blank(call.approvalID) then Some(NoApprovalID)
    else if env.approval.None? || env.approval.value.runID != call.runID then Some(ApprovalNotFound)
    else if env.approval.value.status != "approved" then Some(NotApproved)
    else if env.approval.value.scope != "code_write" then Some(WrongScope)
    else if PathPolicy.FirstViolation(env.forbidden, PathsOf(call.req.files)).Some? then Some(PathRefused)
    else if !env.stepOk then Some(StepFailed)
    else None
  }

  /** Round i as the checks answer it; past the list they pass. */
  function RoundAt(env: RepairEnv, i: nat): (round: Action)
    ensures round.Round?
  {
    if i < |env.rounds| && env.rounds[i].Round? then env.rounds[i] else Round(NoError, NoError)
  }

  /** Rounds from i to max, ending with the first that passes. */
  function RoundsFrom(env: RepairEnv, i: nat, max: nat): (rounds: seq<Action>)
    requires i <= max
    ensures i < max ==> rounds != []
    decreases max - i
  {
    if i == max then []
    else if Passes(RoundAt(env, i)) then [RoundAt(env, i)]
    else [RoundAt(env, i)] + RoundsFrom(env, i + 1, max)
  }

  function Tail(rounds: seq<Action>): Action
    requires rounds != []
  {
    rounds[|rounds| - 1]
  }

  /** The shape of the rounds: at least one, at most max, only the last can pass, and it does if there
      were fewer than max. */
  lemma {:induction false} RoundsShape(env: RepairEnv, i: nat, max: nat)
    requires i < max
    ensures var rounds := RoundsFrom(env, i, max);
            && 1 <= |rounds| <= max - i
            && (forall k | 0 <= k < |rounds| :: rounds[k] == RoundAt(env, i + k))
            && (forall k | 0 <= k < |rounds| - 1 :: !Passes(rounds[k]))
            && (|rounds| < max - i ==> Passes(Tail(rounds)))
    decreases max - i
  {
    if !Passes(RoundAt(env, i)) && i + 1 < max {
      var rest := RoundsFrom(env, i + 1, max);
      RoundsShape(env, i + 1, max);
      assert forall k | 1 <= k < |rest| + 1 :: RoundsFrom(env, i, max)[k] == rest[k - 1];
    }
  }

  datatype RepairEffect = RepairEffect(repo: Repo, trace: seq<Action>)

  /** Where a call leaves the repository, and what it did, in order. */
  function Effect(call: RepairCall, env: RepairEnv, cap: nat, r: Repo): RepairEffect
    requires WellFormed(r) && cap >= 1
  {
    if Gate(call, env, cap).Some? then RepairEffect(r, [])
    else
      var (executed, _, result) := ExecuteEffect(r, call.req, env.executeFates, env.revOk);
      var start := [ExecuteRun(result.Ok?)];
      if result.Err? || call.req.dryRun then RepairEffect(executed, start)
      else
        var rounds := RoundsFrom(env, 0, Iterations(call.maxIterations, cap));
        if Passes(Tail(rounds)) then RepairEffect(executed, start + rounds + [PullRequest(env.prOk)])
        else
          var undone := RollbackEffect(executed, call.req.base, call.req.head, env.rollbackFates);
          RepairEffect(undone.repo, start + rounds + [RollbackRun(undone.ok)])
  }

  // ---------- the gate ----------

  /** What a call needs to be run: an approval of this run for writing code, and paths the policy accepts. */
  ghost predicate Approved(call: RepairCall, env: RepairEnv) {
    && Text.TrimSpace(call.approvalID) != "" && env.approval.Some?
    && env.approval.value.runID == call.runID && env.approval.value.status == "approved" && env.approval.value.scope == "code_write"
  }

  ghost predicate PathsAccepted(call: RepairCall, env: RepairEnv) {
    forall i | 0 <= i < |call.req.files| ::
      var canonical := PathPolicy.CanonicalizePath(call.req.files[i].path);
      canonical.Ok? && !PathPolicy.ForbiddenBy(env.forbidden, canonical.value)
  }

  lemma PathsAcceptedMeaning(call: RepairCall, env: RepairEnv)
    ensures PathPolicy.FirstViolation(env.forbidden, PathsOf(call.req.files)) == None <==> PathsAccepted(call, env)
  {
    var paths := PathsOf(call.req.files);
    PathPolicy.FirstViolationNone(env.forbidden, paths);
    forall i | 0 <= i < |paths|
      ensures PathPolicy.CheckPath(env.forbidden, paths[i]) == None <==>
              PathPolicy.CanonicalizePath(call.req.files[i].path).Ok?
              && !PathPolicy.ForbiddenBy(env.forbidden, PathPolicy.CanonicalizePath(call.req.files[i].path).value)
    {
      PathPolicy.CheckPathMeaning(env.forbidden, paths[i]);
    }
  }

  lemma GateOpens(call: RepairCall, env: RepairEnv, cap: nat)
    requires cap >= 1
    ensures Gate(call, env, cap).None? <==>
            && env.runKnown && env.toolAllowed && call.maxIterations <= cap
            && Approved(call, env) && PathsAccepted(call, env) && env.stepOk
  {
    PathsAcceptedMeaning(call, env);
  }

  /** Main result about what starts a repair: a call does anything at all exactly when its run exists, its tool
      is allowed, it asks for no more rounds than the cap, it is approved, the policy accepts every path, and
      its step can be recorded. */
  lemma RepairStarts(call: RepairCall, env: RepairEnv, cap: nat, r: Repo)
    requires WellFormed(r) && cap >= 1
    ensures Effect(call, env, cap, r).trace != [] <==>
            && env.runKnown && env.toolAllowed && call.maxIterations <= cap
            && Approved(call, env) && PathsAccepted(call, env) && env.stepOk
    ensures Effect(call, env, cap, r).trace == [] ==> Effect(call, env, cap, r).repo == r
  {
    GateOpens(call, env, cap);
  }

  /** A refused call is refused for the first thing it lacks. */
  lemma RefusalReasons(call: RepairCall, env: RepairEnv, cap: nat)
    requires cap >= 1
    ensures var g, a := Gate(call, env, cap), env.approval;
            var ranged := env.runKnown && env.toolAllowed && call.maxIterations <= cap;
            var named := ranged && Text.TrimSpace(call.approvalID) != "";
            var found := named && a.Some? && a.value.runID == call.runID;
            && (g == Some(NoSuchRun) <==> !env.runKnown)
            && (g == Some(ToolForbidden) <==> env.runKnown && !env.toolAllowed)
            && (g == Some(TooManyIterations) <==> env.runKnown && env.toolAllowed && !ranged)
            && (g == Some(NoApprovalID) <==> ranged && !named)
            && (g == Some(ApprovalNotFound) <==> named && !found)
            && (g == Some(NotApproved) <==> found && a.value.status != "approved")
            && (g == Some(WrongScope) <==> found && a.value.status == "approved" && a.value.scope != "code_write")
            && (g == Some(PathRefused) <==> ranged && Approved(call, env) && !PathsAccepted(call, env))
            && (g == Some(StepFailed) <==> ranged && Approved(call, env) && PathsAccepted(call, env) && !env.stepOk)
  {
    PathsAcceptedMeaning(call, env);
  }

  /** Main result: no repair commits what the policy forbids. From a clean tree, whatever commit a call that
      starts makes, pushed or not, kept or rolled back later, differs from base's only at paths of its
      request that are canonical and that no forbidden prefix matches. */
  lemma RepairCommitsAllowed(call: RepairCall, env: RepairEnv, cap: nat, r: Repo, p: string)
    requires WellFormed(r) && CleanTree(r) && cap >= 1 && Effect(call, env, cap, r).trace != []
    requires AllSafe(call.req.files) && Committed(r, call.req, env.executeFates)
    ensures call.req.base in r.local || call.req.base in r.tracking
    ensures var c := HeadCommit(Perform(r, Plan(call.req), env.executeFates, 0).0);
            Get(c.tree, p) != Get(BaseCommit(r, call.req.base).tree, p) ==>
              && !PathPolicy.ForbiddenBy(env.forbidden, p)
              && exists i | 0 <= i < |call.req.files| :: PathPolicy.CanonicalizePath(call.req.files[i].path) == Ok(p)
  {
    RepairStarts(call, env, cap, r);
    PathsAcceptedMeaning(call, env);
    CommittedTree(r, call.req, env.executeFates, p);
    var ws := Writes(call.req.files);
    if LastWrite(ws, |ws|, p).Some? {
      var i := LastWriter(ws, |ws|, p);
      PathPolicy.WrittenPathsAreAllowed(env.forbidden, PathsOf(call.req.files), i, p);
    }
  }

  lemma {:induction false} LastWriter(ws: seq<FileWrite>, n: nat, p: string) returns (i: nat)
    requires n <= |ws| && LastWrite(ws, n, p).Some?
    ensures i < n && ws[i].path == p
  {
    i := n - 1;
    if ws[i].path != p { i := LastWriter(ws, i, p); }
  }

  // ---------- the loop's laws ----------

  /** What a call that got past its gate did. */
  ghost predicate Shape(trace: seq<Action>, dryRun: bool, max: int) {
    && trace != [] && trace[0].ExecuteRun?
    && if !trace[0].ok || dryRun then |trace| == 1
       else
         var n := |trace| - 2;
         && 1 <= n <= max
         && (forall k | 1 <= k <= n :: trace[k].Round?)
         && (forall k | 1 <= k < n :: !Passes(trace[k]))
         && (n < max ==> Passes(trace[n]))
         && (trace[n + 1].PullRequest? <==> Passes(trace[n]))
         && (trace[n + 1].RollbackRun? <==> !Passes(trace[n]))
  }

  lemma ShapeOfParts(ok: bool, rounds: seq<Action>, last: Action, max: int)
    requires ok && 1 <= |rounds| <= max && (forall k | 0 <= k < |rounds| :: rounds[k].Round?)
    requires forall k | 0 <= k < |rounds| - 1 :: !Passes(rounds[k])
    requires |rounds| < max ==> Passes(Tail(rounds))
    requires (last.PullRequest? <==> Passes(Tail(rounds))) && (last.RollbackRun? <==> !Passes(Tail(rounds)))
    ensures Shape([ExecuteRun(ok)] + rounds + [last], false, max)
  {
    var trace := [ExecuteRun(ok)] + rounds + [last];
    assert forall k | 1 <= k <= |rounds| :: trace[k] == rounds[k - 1];
  }

  /** Main result: a refused call does nothing; any other executes once, and a real one that executes
      runs between 1 and max_iterations rounds, within the server's cap; only the last round can pass;
      then comes exactly one of a pull request, if it passed, and a rollback, if it did not. A dry run or
      a failed execution is followed by nothing. */
  lemma RepairShape(call: RepairCall, env: RepairEnv, cap: nat, r: Repo)
    requires WellFormed(r) && cap >= 1
    ensures var e, max := Effect(call, env, cap, r), if call.maxIterations <= 0 then cap else call.maxIterations;
            if e.trace == [] then e.repo == r
            else 1 <= max <= cap && Shape(e.trace, call.req.dryRun, max) && (call.req.dryRun ==> e.repo == r)
  {
    if Gate(call, env, cap).None? {
      var (executed, _, result) := ExecuteEffect(r, call.req, env.executeFates, env.revOk);
      var max := Iterations(call.maxIterations, cap);
      if result.Ok? && !call.req.dryRun {
        var rounds := RoundsFrom(env, 0, max);
        RoundsShape(env, 0, max);
        assert forall k | 0 <= k < |rounds| :: rounds[k] == RoundAt(env, k);
        ShapeOfParts(true, rounds, Tail(Effect(call, env, cap, r).trace), max);
      }
    }
  }

  /** What a call did is what its environment answered: the execution as `Execute` went, each round as the
      checks did, the pull request as GitHub did. */
  lemma TraceTellsAnswers(call: RepairCall, env: RepairEnv, cap: nat, r: Repo)
    requires WellFormed(r) && cap >= 1 && Effect(call, env, cap, r).trace != []
    ensures var trace := Effect(call, env, cap, r).trace;
            && trace[0] == ExecuteRun(ExecuteEffect(r, call.req, env.executeFates, env.revOk).2.Ok?)
            && (forall k | 1 <= k < |trace| - 1 :: k - 1 < |env.rounds| && env.rounds[k - 1].Round? ==> trace[k] == env.rounds[k - 1])
            && (Tail(trace).PullRequest? ==> Tail(trace).ok == env.prOk)
  {
    TraceParts(call, env, cap, r);
    var trace := Effect(call, env, cap, r).trace;
    if |trace| > 1 {
      RoundsShape(env, 0, Iterations(call.maxIterations, cap));
      PartsOfTrace(ExecuteRun(true), RoundsFrom(env, 0, Iterations(call.maxIterations, cap)), Tail(trace), env);
    }
  }

  lemma TraceParts(call: RepairCall, env: RepairEnv, cap: nat, r: Repo)
    requires WellFormed(r) && cap >= 1 && Effect(call, env, cap, r).trace != []
    ensures Iterations(call.maxIterations, cap) >= 1
    ensures var trace := Effect(call, env, cap, r).trace;
            var executed := ExecuteEffect(r, call.req, env.executeFates, env.revOk).2.Ok?;
            if |trace| == 1 then trace[0] == ExecuteRun(executed)
            else
              && executed && trace == [ExecuteRun(true)] + RoundsFrom(env, 0, Iterations(call.maxIterations, cap)) + [Tail(trace)]
              && (Tail(trace).PullRequest? ==> Tail(trace).ok == env.prOk)
  {
    EffectOfPlanned(call, env, cap, r);
  }

  lemma PartsOfTrace(first: Action, rounds: seq<Action>, last: Action, env: RepairEnv)
    requires forall k | 0 <= k < |rounds| :: rounds[k] == RoundAt(env, 0 + k)
    ensures var trace := [first] + rounds + [last];
            && trace[0] == first && Tail(trace) == last
            && forall k | 1 <= k < |trace| - 1 :: k - 1 < |env.rounds| && env.rounds[k - 1].Round? ==> trace[k] == env.rounds[k - 1]
  {
    var trace := [first] + rounds + [last];
    forall k | 1 <= k < |trace| - 1 ensures trace[k] == RoundAt(env, k - 1) { assert trace[k] == rounds[k - 1]; }
  }

  lemma EffectOfPlanned(call: RepairCall, env: RepairEnv, cap: nat, r: Repo)
    requires WellFormed(r) && cap >= 1 && Gate(call, env, cap).None?
    ensures var (executed, _, result) := ExecuteEffect(r, call.req, env.executeFates, env.revOk);
            && (result.Err? || call.req.dryRun ==> Effect(call, env, cap, r) == RepairEffect(executed, [ExecuteRun(result.Ok?)]))
            && (result.Ok? ==> ValidBranch(call.req.base) && ValidBranch(call.req.head))
            && (result.Ok? && !call.req.dryRun ==>
                  var rounds := RoundsFrom(env, 0, Iterations(call.maxIterations, cap));
                  var undone := RollbackEffect(executed, call.req.base, call.req.head, env.rollbackFates);
                  Effect(call, env, cap, r)
                  == if Passes(Tail(rounds)) then RepairEffect(executed, [ExecuteRun(true)] + rounds + [PullRequest(env.prOk)])
                     else RepairEffect(undone.repo, [ExecuteRun(true)] + rounds + [RollbackRun(undone.ok)]))
  {
  }

  lemma ExecutedPlan(call: RepairCall, env: RepairEnv, cap: nat, r: Repo)
    requires WellFormed(r) && cap >= 1
    ensures var e := Effect(call, env, cap, r);
            |e.trace| > 1 ==>
              && AllSafe(call.req.files) && Perform(r, Plan(call.req), env.executeFates, 0).2
              && var executed := Perform(r, Plan(call.req), env.executeFates, 0).0;
                 var undone := RollbackEffect(executed, call.req.base, call.req.head, env.rollbackFates);
                 && (Tail(e.trace).PullRequest? ==> e.repo == executed)
                 && (Tail(e.trace).RollbackRun? ==> undone.ok == Tail(e.trace).ok && e.repo == undone.repo)
  {
    if Gate(call, env, cap).None? { EffectOfPlanned(call, env, cap, r); }
  }

  /** Main result: when a pull request is attempted, its head branch is at the remote, one commit on top
      of base. */
  lemma PullRequestHasItsBranch(call: RepairCall, env: RepairEnv, cap: nat, r: Repo)
    requires WellFormed(r) && cap >= 1
    ensures var e := Effect(call, env, cap, r);
            |e.trace| > 1 && Tail(e.trace).PullRequest? ==>
              (call.req.base in r.local || call.req.base in r.tracking) && WellFormed(e.repo) && CommittedAs(r, call.req, e.repo, HeadCommit(e.repo))
  {
    ExecutedPlan(call, env, cap, r);
    if |Effect(call, env, cap, r).trace| > 1 { ExecuteCommits(r, call.req, env.executeFates); }
  }

  /** Main result: a call whose checks never pass and whose rollback succeeds leaves a clean repository
      as a rollback does: branches as before but for head, HEAD and trees at base. */
  lemma FailedRepairRestores(call: RepairCall, env: RepairEnv, cap: nat, r: Repo)
    requires WellFormed(r) && cap >= 1 && CleanTree(r)
    ensures var e := Effect(call, env, cap, r);
            |e.trace| > 1 && Tail(e.trace) == RollbackRun(true) ==>
              (call.req.base in r.local || call.req.base in r.tracking) && RestoredAs(r, call.req.base, call.req.head, e.repo)
  {
    ExecutedPlan(call, env, cap, r);
    var e := Effect(call, env, cap, r);
    if |e.trace| > 1 && Tail(e.trace) == RollbackRun(true) {
      RollbackUndoesExecute(r, call.req, env.executeFates, env.rollbackFates);
    }
  }

  // ---------- counters ----------

  function CountAction(c: Counters, a: Action): Counters {
    match a
    case ExecuteRun(_) => c
    case Round(test, lint) =>
      c.(qaResults := Bump(Bump(c.qaResults, (KindTest, MetricOf(test))), (KindLint, MetricOf(lint))),
         iterations := Bump(c.iterations, Passes(a)))
    case RollbackRun(ok) =>
      c.(rollbacks := Bump(c.rollbacks, ok), completed := Bump(c.completed, if ok then QAFailed else RollbackError))
    case PullRequest(ok) => if ok then c.(completed := Bump(c.completed, Success)) else c
  }

  function CountTrace(c: Counters, trace: seq<Action>): Counters {
    if trace == [] then c else CountAction(CountTrace(c, trace[..|trace| - 1]), trace[|trace| - 1])
  }

  lemma CountTraceStep(c: Counters, trace: seq<Action>, a: Action)
    ensures CountTrace(c, trace + [a]) == CountAction(CountTrace(c, trace), a)
  {
    assert (trace + [a])[..|trace|] == trace;
  }

  /** Requests since start: repair calls by what they did, branch requests by whether execution failed. */
  datatype Handled = RepairHandled(trace: seq<Action>) | BranchHandled(executeFailed: bool)

  /** The branch handler counts a failed execution twice. */
  function CountBranch(c: Counters, executeFailed: bool): Counters {
    if executeFailed then c.(completed := Bump(Bump(c.completed, CodeError), CodeError)) else c
  }

  function CountHistory(c: Counters, history: seq<Handled>): Counters {
    if history == [] then c
    else
      var before, last := CountHistory(c, history[..|history| - 1]), history[|history| - 1];
      match last
      case RepairHandled(trace) => CountTrace(before, trace)
      case BranchHandled(failed) => CountBranch(before, failed)
  }

  // ---------- counters equal history ----------

  /** How often things happened. */
  datatype Tally = Tally(rounds: nat, passing: nat, rolledBack: nat, rollbackFailed: nat, pullRequests: nat, failedBranches: nat)

  function Nothing(): Tally { Tally(0, 0, 0, 0, 0, 0) }

  function Plus(a: Tally, b: Tally): Tally {
    Tally(a.rounds + b.rounds, a.passing + b.passing, a.rolledBack + b.rolledBack, a.rollbackFailed + b.rollbackFailed,
          a.pullRequests + b.pullRequests, a.failedBranches + b.failedBranches)
  }

  function TallyOf(a: Action): Tally {
    match a
    case ExecuteRun(_) => Nothing()
    case Round(_, _) => Nothing().(rounds := 1, passing := if Passes(a) then 1 else 0)
    case RollbackRun(ok) => if ok then Nothing().(rolledBack := 1) else Nothing().(rollbackFailed := 1)
    case PullRequest(ok) => if ok then Nothing().(pullRequests := 1) else Nothing()
  }

  function TraceTally(trace: seq<Action>): Tally {
    if trace == [] then Nothing() else Plus(TraceTally(trace[..|trace| - 1]), TallyOf(trace[|trace| - 1]))
  }

  function HistoryTally(history: seq<Handled>): Tally {
    if history == [] then Nothing()
    else
      Plus(HistoryTally(history[..|history| - 1]),
           match history[|history| - 1]
           case RepairHandled(trace) => TraceTally(trace)
           case BranchHandled(failed) => if failed then Nothing().(failedBranches := 1) else Nothing())
  }

  /** What the counters read when things happened that often. */
  ghost predicate Reads(c: Counters, n: Tally) {
    && ResultsTotal(c, KindTest) == ResultsTotal(c, KindLint) == IterationsTotal(c) == n.rounds
    && Reading(c.iterations, true) == n.passing
    && Reading(c.rollbacks, true) == Reading(c.completed, QAFailed) == n.rolledBack
    && Reading(c.rollbacks, false) == Reading(c.completed, RollbackError) == n.rollbackFailed
    && Reading(c.completed, Success) == n.pullRequests
    && Reading(c.completed, CodeError) == 2 * n.failedBranches
  }

  lemma ReadsRound(c: Counters, a: Action, n: Tally)
    requires Reads(c, n) && a.Round?
    ensures Reads(CountAction(c, a), Plus(n, TallyOf(a)))
  {
    var tested := c.(qaResults := Bump(c.qaResults, (KindTest, MetricOf(a.test))));
    forall kind: Kind ensures ResultsTotal(CountAction(c, a), kind) == ResultsTotal(c, kind) + 1 {
      ResultsTotalBump(c, KindTest, MetricOf(a.test), kind);
      ResultsTotalBump(tested, KindLint, MetricOf(a.lint), kind);
    }
  }

  lemma ReadsRollback(c: Counters, ok: bool, n: Tally)
    requires Reads(c, n)
    ensures Reads(CountAction(c, RollbackRun(ok)), Plus(n, TallyOf(RollbackRun(ok))))
  {
    var c' := CountAction(c, RollbackRun(ok));
    assert c'.qaResults == c.qaResults && c'.iterations == c.iterations;
  }

  lemma ReadsPullRequest(c: Counters, ok: bool, n: Tally)
    requires Reads(c, n)
    ensures Reads(CountAction(c, PullRequest(ok)), Plus(n, TallyOf(PullRequest(ok))))
  {
    var c' := CountAction(c, PullRequest(ok));
    assert c'.qaResults == c.qaResults && c'.iterations == c.iterations && c'.rollbacks == c.rollbacks;
  }

  lemma ReadsAction(c: Counters, a: Action, n: Tally)
    requires Reads(c, n)
    ensures Reads(CountAction(c, a), Plus(n, TallyOf(a)))
  {
    match a
    case ExecuteRun(_) =>
    case Round(_, _) => ReadsRound(c, a, n);
    case RollbackRun(ok) => ReadsRollback(c, ok, n);
    case PullRequest(ok) => ReadsPullRequest(c, ok, n);
  }

  lemma PlusAssociative(a: Tally, b: Tally, c: Tally)
    ensures Plus(Plus(a, b), c) == Plus(a, Plus(b, c))
  {
  }

  lemma {:induction false} ReadsTrace(c: Counters, trace: seq<Action>, n: Tally)
    requires Reads(c, n)
    ensures Reads(CountTrace(c, trace), Plus(n, TraceTally(trace)))
  {
    if trace == [] {
      assert Plus(n, Nothing()) == n;
    } else {
      var init, last := trace[..|trace| - 1], trace[|trace| - 1];
      ReadsTrace(c, init, n);
      ReadsAction(CountTrace(c, init), last, Plus(n, TraceTally(init)));
      PlusAssociative(n, TraceTally(init), TallyOf(last));
    }
  }

  /** Main result: over any sequence of repair and branch requests the counters equal the history: test
      results, lint results and iterations all number the rounds, a pass is a round that passed, rollbacks
      that worked and failed match their completions, `success` numbers the pull requests made; but
      `code_error` numbers failed branch executions twice, and failed repair executions not at all. */
  lemma {:induction false} CountersEqualHistory(history: seq<Handled>)
    ensures Reads(CountHistory(ZERO, history), HistoryTally(history))
  {
    if history != [] {
      var init, last := history[..|history| - 1], history[|history| - 1];
      CountersEqualHistory(init);
      if last.RepairHandled? { ReadsTrace(CountHistory(ZERO, init), last.trace, HistoryTally(init)); }
    }
  }

  // ---------- results by label ----------

  /** What each label of a check's result stands for. */
  predicate Labelled(o: QAOutcome, m: Metric) {
    match m
    case MetricPass => o == NoError
    case MetricTimeout => o == QAError(Timeout)
    case MetricFail => o == QAError(ExecFailed) || (o.PlainError? && o.exitCode > 0)
    case MetricError => o == QAError(OtherCode) || (o.PlainError? && o.exitCode <= 0)
  }

  /** The rounds whose result of this kind goes by this label. */
  function RoundsLabelled(trace: seq<Action>, kind: Kind, m: Metric): nat {
    if trace == [] then 0
    else
      var a := trace[|trace| - 1];
      RoundsLabelled(trace[..|trace| - 1], kind, m)
      + if a.Round? && Labelled(if kind == KindTest then a.test else a.lint, m) then 1 else 0
  }

  lemma LabelOf(o: QAOutcome, m: Metric)
    ensures MetricOf(o) == m <==> Labelled(o, m)
  {
  }

  /** Each result counter grows by the rounds whose result goes by its label. */
  lemma {:induction false} LabelsEqualHistory(c: Counters, trace: seq<Action>, kind: Kind, m: Metric)
    ensures Reading(CountTrace(c, trace).qaResults, (kind, m)) == Reading(c.qaResults, (kind, m)) + RoundsLabelled(trace, kind, m)
  {
    if trace != [] {
      var before, a := CountTrace(c, trace[..|trace| - 1]), trace[|trace| - 1];
      LabelsEqualHistory(c, trace[..|trace| - 1], kind, m);
      if a.Round? {
        LabelOf(if kind == KindTest then a.test else a.lint, m);
        ReadingBump(before.qaResults, (KindTest, MetricOf(a.test)), (kind, m));
        ReadingBump(Bump(before.qaResults, (KindTest, MetricOf(a.test))), (KindLint, MetricOf(a.lint)), (kind, m));
      }
    }
  }

  // ---------- the handlers ----------

  datatype RepairResult = RepairResult(iterationsRun: nat, qaPassed: bool, failed: bool)

  /** A call that ends like this failed. */
  predicate Unsuccessful(a: Action) {
    a.Round? || a.RollbackRun? || !a.ok
  }

  /** The report, read off what the call did: its rounds stand between the execution and the conclusion. */
  function ReportOf(trace: seq<Action>): RepairResult
    requires trace != []
  {
    RepairResult(if |trace| > 2 then |trace| - 2 else 0, Tail(trace).PullRequest?, Unsuccessful(Tail(trace)))
  }

  lemma ReportOfParts(first: Action, rounds: seq<Action>, last: Action)
    requires rounds != []
    ensures ReportOf([first] + rounds + [last]) == RepairResult(|rounds|, last.PullRequest?, Unsuccessful(last))
  {
  }

  function RoundsIn(trace: seq<Action>): nat {
    if trace == [] then 0 else RoundsIn(trace[..|trace| - 1]) + if trace[|trace| - 1].Round? then 1 else 0
  }

  lemma {:induction false} RoundsInMiddle(trace: seq<Action>)
    requires trace != [] && trace[0].ExecuteRun? && forall k | 1 <= k < |trace| :: trace[k].Round?
    ensures RoundsIn(trace) == |trace| - 1
  {
    if |trace| == 1 {
      assert trace[..0] == [];
    } else {
      RoundsInMiddle(trace[..|trace| - 1]);
    }
  }

  lemma ReportOfShape(trace: seq<Action>, dryRun: bool, max: int)
    requires Shape(trace, dryRun, max)
    ensures ReportOf(trace).iterationsRun == RoundsIn(trace)
    ensures ReportOf(trace).qaPassed <==> exists k | 0 <= k < |trace| :: Passes(trace[k])
    ensures !ReportOf(trace).failed <==> Tail(trace) == ExecuteRun(true) || Tail(trace) == PullRequest(true)
  {
    if |trace| == 1 {
      RoundsInMiddle(trace);
    } else {
      var n := |trace| - 2;
      assert Tail(trace) == trace[n + 1];
      RoundsInMiddle(trace[..n + 1]);
    }
  }

  /** What the report says of a call: how many rounds it ran, whether one passed both checks, and that it
      failed unless it ended with a successful dry run or the pull request made. */
  lemma ReportMeaning(call: RepairCall, env: RepairEnv, cap: nat, r: Repo)
    requires WellFormed(r) && cap >= 1 && Effect(call, env, cap, r).trace != []
    ensures var trace := Effect(call, env, cap, r).trace;
            var report := ReportOf(trace);
            && report.iterationsRun == RoundsIn(trace)
            && (report.qaPassed <==> exists k | 0 <= k < |trace| :: trace[k].Round? && trace[k].test == NoError && trace[k].lint == NoError)
            && (!report.failed <==> Tail(trace) == ExecuteRun(true) || Tail(trace) == PullRequest(true))
  {
    var trace := Effect(call, env, cap, r).trace;
    RepairShape(call, env, cap, r);
    ReportOfShape(trace, call.req.dryRun, if call.maxIterations <= 0 then cap else call.maxIterations);
    assert forall k | 0 <= k < |trace| :: Passes(trace[k]) <==> trace[k].Round? && trace[k].test == NoError && trace[k].lint == NoError;
  }

  /** One round of checks: both results are counted, then the iteration. */
  method RunRound(t: Registry, round: Action) returns (passed: bool)
    requires round.Round?
    modifies t
    ensures passed == Passes(round) && t.View() == CountAction(old(t.View()), round)
  {
    t.IncRepairQAResult(KindTest, MetricOf(round.test));
    t.IncRepairQAResult(KindLint, MetricOf(round.lint));
    passed := round.test == NoError && round.lint == NoError;
    t.IncRepairIteration(passed);
  }

  lemma NextRound(env: RepairEnv, i: nat, max: nat, done: seq<Action>)
    requires i < max && RoundsFrom(env, 0, max) == done + RoundsFrom(env, i, max)
    ensures var next := done + [RoundAt(env, i)];
            RoundsFrom(env, 0, max) == if Passes(RoundAt(env, i)) then next else next + RoundsFrom(env, i + 1, max)
  {
    assert done + ([RoundAt(env, i)] + RoundsFrom(env, i + 1, max)) == (done + [RoundAt(env, i)]) + RoundsFrom(env, i + 1, max);
  }

  lemma CountNext(c: Counters, before: seq<Action>, done: seq<Action>, a: Action)
    ensures CountTrace(c, before + (done + [a])) == CountAction(CountTrace(c, before + done), a)
  {
    assert before + (done + [a]) == (before + done) + [a];
    CountTraceStep(c, before + done, a);
  }

  /** The loop over the rounds. */
  method RunRounds(t: Registry, env: RepairEnv, max: nat, ghost before: seq<Action>, ghost c0: Counters)
    returns (iterationsRun: nat, qaPassed: bool, ghost rounds: seq<Action>)
    requires max >= 1 && t.View() == CountTrace(c0, before)
    modifies t
    ensures rounds == RoundsFrom(env, 0, max) && iterationsRun == |rounds| && qaPassed == Passes(Tail(rounds))
    ensures t.View() == CountTrace(c0, before + rounds)
  {
    iterationsRun, qaPassed, rounds := 0, false, [];
    assert before + rounds == before;
    for i := 0 to max
      invariant !qaPassed && iterationsRun == |rounds| == i
      invariant RoundsFrom(env, 0, max) == rounds + RoundsFrom(env, i, max)
      invariant i > 0 ==> !Passes(Tail(rounds))
      invariant t.View() == CountTrace(c0, before + rounds)
    {
      iterationsRun := i + 1;
      NextRound(env, i, max, rounds);
      CountNext(c0, before, rounds, RoundAt(env, i));
      rounds := rounds + [RoundAt(env, i)];
      qaPassed := RunRound(t, RoundAt(env, i));
      if qaPassed {
        return;
      }
    }
  }

  method CountRollback(t: Registry, ok: bool)
    modifies t
    ensures t.View() == CountAction(old(t.View()), RollbackRun(ok))
  {
    t.IncRepairRollback(ok);
    t.IncRepairCompleted(if ok then QAFailed else RollbackError);
  }

  /** After the rounds: a pull request if the last one passed, a rollback if not. */
  method Conclude(repo: Repository, t: Registry, call: RepairCall, env: RepairEnv, qaPassed: bool,
                  ghost trace: seq<Action>, ghost c0: Counters) returns (failed: bool, ghost last: Action)
    requires repo.Valid() && ValidBranch(call.req.base) && ValidBranch(call.req.head)
    requires t.View() == CountTrace(c0, trace)
    modifies repo, t
    ensures repo.Valid() && t.View() == CountTrace(c0, trace + [last])
    ensures var undone := RollbackEffect(old(repo.state), call.req.base, call.req.head, env.rollbackFates);
            && last == (if qaPassed then PullRequest(env.prOk) else RollbackRun(undone.ok))
            && repo.state == (if qaPassed then old(repo.state) else undone.repo)
    ensures failed == Unsuccessful(last)
  {
    if !qaPassed {
      var rollback := RollbackBranch(repo, call.req.base, call.req.head, false, env.rollbackFates);
      CountRollback(t, rollback.Ok?);
      last := RollbackRun(rollback.Ok?);
      CountTraceStep(c0, trace, last);
      return true, last;
    }
    if env.prOk {
      t.IncRepairCompleted(Success);
    }
    last := PullRequest(env.prOk);
    CountTraceStep(c0, trace, last);
    return !env.prOk, last;
  }

  /** The handler: it leaves the repository, the counters and its trace just as the effect function says,
      and reports what it did. */
  method RepairLoop(repo: Repository, t: Registry, call: RepairCall, env: RepairEnv, configuredCap: int)
    returns (r: Result<RepairResult, Refusal>, ghost trace: seq<Action>)
    requires repo.Valid()
    modifies repo, t
    ensures repo.Valid()
    ensures Effect(call, env, Cap(configuredCap), old(repo.state)) == RepairEffect(repo.state, trace)
    ensures t.View() == CountTrace(old(t.View()), trace)
    ensures r.Ok? <==>
            && env.runKnown && env.toolAllowed && call.maxIterations <= (if configuredCap <= 0 then 3 else configuredCap)
            && Approved(call, env) && PathsAccepted(call, env) && env.stepOk
    ensures match r
            case Err(refusal) => Gate(call, env, Cap(configuredCap)) == Some(refusal)
            case Ok(result) => Gate(call, env, Cap(configuredCap)).None? && trace != [] && result == ReportOf(trace)
  {
    trace := [];
    ghost var c0 := t.View();
    var cap := Cap(configuredCap);
    RepairStarts(call, env, cap, repo.state);
    var refusal := Gate(call, env, cap);
    if refusal.Some? {
      return Err(refusal.value), [];
    }
    EffectOfPlanned(call, env, cap, repo.state);
    var executed := Execute(repo, call.req, env.executeFates, env.revOk);
    trace := [ExecuteRun(executed.Ok?)];
    CountTraceStep(c0, [], ExecuteRun(executed.Ok?));
    assert [] + trace == trace;
    if executed.Err? || call.req.dryRun {
      return Ok(RepairResult(0, false, executed.Err?)), trace;
    }
    var max := Iterations(call.maxIterations, cap);
    var iterationsRun, qaPassed;
    ghost var rounds, last;
    iterationsRun, qaPassed, rounds := RunRounds(t, env, max, trace, c0);
    var failed;
    failed, last := Conclude(repo, t, call, env, qaPassed, trace + rounds, c0);
    ReportOfParts(ExecuteRun(true), rounds, last);
    trace := trace + rounds + [last];
    return Ok(RepairResult(iterationsRun, qaPassed, failed)), trace;
  }

  /** The branch handler's counting: a failed execution is counted twice. */
  method CountBranchExecution(t: Registry, executeFailed: bool)
    modifies t
    ensures t.View() == CountBranch(old(t.View()), executeFailed)
  {
    if executeFailed {
      t.IncRepairCompleted(CodeError);
    }
    if executeFailed {
      t.IncRepairCompleted(CodeError);
    }
  }
}

/** The code runner: `Execute` plans and runs the git commands that put a list of files on a new branch,
    `RollbackBranch` undoes them. */
module CodeOps {
  import opened Wrappers
  import opened Git
  import opened Text
  import PathPolicy

  datatype FileChange = FileChange(path: string, content: string)
  datatype Request = Request(base: string, head: string, message: string, files: seq<FileChange>, dryRun: bool)
  datatype RunError = BadBranch | NoMessage | NoFiles | BadPath | CommandFailed
  datatype Executed = Executed(planned: seq<Command>, commit: Option<Commit>)

  // ---------- validation ----------

  predicate BranchChar(c: char) {
    'A' <= c <= 'Z' || 'a' <= c <= 'z' || '0' <= c <= '9' || c in "._/-"
  }

  predicate ValidBranch(name: string) {
    var trimmed := TrimSpace(name);
    && trimmed != "" && !("-" <= trimmed) && !Contains(trimmed, "..") && !Contains(trimmed, " ")
    && forall i | 0 <= i < |trimmed| :: BranchChar(trimmed[i])
  }

  /** The branch names that are accepted: trimmed, they hold letters, digits and `._/-` alone, do not look
      like an option, and have no two dots in a row. */
  lemma BranchNames(name: string)
    ensures var t := TrimSpace(name);
            ValidBranch(name) <==> t != "" && t[0] != '-' && AllNameChars(t) && !DotDot(t)
  {
    var t := TrimSpace(name);
    forall c: char ensures BranchChar(c) <==> NameChar(c) {
      var marks := "._/-";
      assert marks[0] == '.' && marks[1] == '_' && marks[2] == '/' && marks[3] == '-';
    }
    DotDotMeaning(t);
    if Contains(t, " ") {
      var i := ContainsPosition(t, " ");
      assert t[i..i + 1] == " " && t[i] == t[i..i + 1][0] == ' ';
      assert !NameChar(t[i]);
    }
  }

  predicate NameChar(c: char) {
    'a' <= c <= 'z' || 'A' <= c <= 'Z' || '0' <= c <= '9' || c == '.' || c == '_' || c == '/' || c == '-'
  }

  predicate AllNameChars(t: string) { forall i | 0 <= i < |t| :: NameChar(t[i]) }

  predicate DotDot(t: string) { exists i | 0 <= i < |t| - 1 :: t[i] == '.' && t[i + 1] == '.' }

  lemma DotDotMeaning(t: string)
    ensures Contains(t, "..") <==> DotDot(t)
  {
    if Contains(t, "..") {
      var i := ContainsPosition(t, "..");
      assert t[i..i + 2] == ".." && t[i] == t[i..i + 2][0] && t[i + 1] == t[i..i + 2][1];
    }
    if i :| 0 <= i < |t| - 1 && t[i] == '.' && t[i + 1] == '.' {
      assert t[i..i + 2] == "..";
      ContainsSlice(t, i, i + 2);
    }
  }

  /** The first path the runner refuses ends the planning. */
  predicate AllSafe(files: seq<FileChange>) {
    forall i {:trigger PathPolicy.SafeRelativePath(files[i].path)} | 0 <= i < |files| :: PathPolicy.SafeRelativePath(files[i].path).Ok?
  }

  function Problem(req: Request): Option<RunError> {
    if !ValidBranch(req.base) || !ValidBranch(req.head) then Some(BadBranch)
    else if TrimSpace(req.message) == "" then Some(NoMessage)
    else if |req.files| == 0 then Some(NoFiles)
    else if !AllSafe(req.files) then Some(BadPath)
    else None
  }

  // ---------- the plan ----------

  function CleanPath(f: FileChange): string
    requires PathPolicy.SafeRelativePath(f.path).Ok?
  {
    PathPolicy.SafeRelativePath(f.path).value
  }

  /** Each file is written, then staged. */
  function FileCommands(files: seq<FileChange>): (commands: seq<Command>)
    requires AllSafe(files)
    ensures |commands| == 2 * |files|
  {
    if files == [] then []
    else
      var f := files[|files| - 1];
      FileCommands(files[..|files| - 1]) + [Write(CleanPath(f), f.content), Add(CleanPath(f))]
  }

  /** Go to base, branch off, write and stage the files, commit, push. */
  function Plan(req: Request): (plan: seq<Command>)
    requires AllSafe(req.files)
    ensures |plan| == 2 * |req.files| + 4
  {
    [Checkout(req.base), CheckoutNew(req.head)] + FileCommands(req.files) + [CommitIndex(req.message), Push(req.head)]
  }

  lemma {:induction false} FileCommandsAt(files: seq<FileChange>, i: nat)
    requires AllSafe(files) && i < |files|
    ensures FileCommands(files)[2 * i] == Write(CleanPath(files[i]), files[i].content)
    ensures FileCommands(files)[2 * i + 1] == Add(CleanPath(files[i]))
  {
    if i < |files| - 1 { FileCommandsAt(files[..|files| - 1], i); }
  }

  lemma PlanEnds(req: Request)
    requires AllSafe(req.files)
    ensures var plan, n := Plan(req), |req.files|;
            && plan[0] == Checkout(req.base) && plan[1] == CheckoutNew(req.head)
            && plan[2 * n + 2] == CommitIndex(req.message) && plan[2 * n + 3] == Push(req.head)
  {
  }

  lemma PlanMiddle(req: Request, i: nat)
    requires AllSafe(req.files) && i < |req.files|
    ensures Plan(req)[2 * i + 2] == Write(CleanPath(req.files[i]), req.files[i].content)
    ensures Plan(req)[2 * i + 3] == Add(CleanPath(req.files[i]))
  {
    var commands := FileCommands(req.files);
    FileCommandsAt(req.files, i);
    InMiddle([Checkout(req.base), CheckoutNew(req.head)], commands, [CommitIndex(req.message), Push(req.head)], 2 * i);
    InMiddle([Checkout(req.base), CheckoutNew(req.head)], commands, [CommitIndex(req.message), Push(req.head)], 2 * i + 1);
  }

  lemma InMiddle(first: seq<Command>, middle: seq<Command>, last: seq<Command>, k: nat)
    requires |first| == 2 && k < |middle|
    ensures (first + middle + last)[k + 2] == middle[k]
  {
  }

  /** The plan as reported shows no file contents. */
  function Shown(command: Command): Command {
    if command.Write? then command.(content := "") else command
  }

  function ShownAll(commands: seq<Command>): (shown: seq<Command>)
    ensures |shown| == |commands|
  {
    seq(|commands|, k requires 0 <= k < |commands| => Shown(commands[k]))
  }

  /** What `Execute` does: refused requests and dry runs touch nothing; otherwise the commands that took
      effect are the plan up to the first failure. */
  function ExecuteEffect(r: Repo, req: Request, fates: seq<Fate>, revOk: bool): (Repo, seq<Command>, Result<Executed, RunError>)
    requires WellFormed(r)
  {
    if Problem(req).Some? then (r, [], Err(Problem(req).value))
    else
      var plan := Plan(req);
      if req.dryRun then (r, [], Ok(Executed(ShownAll(plan), None)))
      else
        var (r', n, ok) := Perform(r, plan, fates, 0);
        (r', plan[..n], if ok && revOk then Ok(Executed(ShownAll(plan), Some(HeadCommit(r')))) else Err(CommandFailed))
  }

  // ---------- the runner ----------

  method ValidateBranch(name: string) returns (ok: bool)
    ensures ok == ValidBranch(name)
  {
    var trimmed := TrimSpace(name);
    if trimmed == "" || "-" <= trimmed || Contains(trimmed, "..") || Contains(trimmed, " ") {
      return false;
    }
    for i := 0 to |trimmed|
      invariant forall j | 0 <= j < i :: BranchChar(trimmed[j])
    {
      if !BranchChar(trimmed[i]) {
        return false;
      }
    }
    return true;
  }

  lemma ShownAppend(a: seq<Command>, b: seq<Command>)
    ensures ShownAll(a + b) == ShownAll(a) + ShownAll(b)
  {
  }

  lemma PlanShown(req: Request)
    requires AllSafe(req.files)
    ensures ShownAll(Plan(req))
            == [Checkout(req.base), CheckoutNew(req.head)] + ShownAll(FileCommands(req.files)) + [CommitIndex(req.message), Push(req.head)]
  {
    var first, last := [Checkout(req.base), CheckoutNew(req.head)], [CommitIndex(req.message), Push(req.head)];
    ShownAppend(first, FileCommands(req.files));
    ShownAppend(first + FileCommands(req.files), last);
    assert ShownAll(first) == first && ShownAll(last) == last;
  }

  /** The reported plan up to the i-th file. */
  ghost function BuiltSoFar(req: Request, i: nat): seq<Command>
    requires i <= |req.files| && AllSafe(req.files[..i])
  {
    [Checkout(req.base), CheckoutNew(req.head)] + ShownAll(FileCommands(req.files[..i]))
  }

  lemma BuiltNext(req: Request, i: nat)
    requires i < |req.files| && AllSafe(req.files[..i]) && PathPolicy.SafeRelativePath(req.files[i].path).Ok?
    ensures AllSafe(req.files[..i + 1])
    ensures BuiltSoFar(req, i + 1) == BuiltSoFar(req, i) + [Write(CleanPath(req.files[i]), "")] + [Add(CleanPath(req.files[i]))]
  {
    PlanStep(req.files, i);
    Regroup([Checkout(req.base), CheckoutNew(req.head)], ShownAll(FileCommands(req.files[..i])),
            [Write(CleanPath(req.files[i]), "")], [Add(CleanPath(req.files[i]))]);
  }

  lemma Regroup(a: seq<Command>, b: seq<Command>, c: seq<Command>, d: seq<Command>)
    ensures a + (b + c + d) == a + b + c + d
  {
  }

  /** Builds the reported plan; the first unsafe path ends it. */
  method PlanCommands(req: Request) returns (commands: Option<seq<Command>>)
    ensures commands == if AllSafe(req.files) then Some(ShownAll(Plan(req))) else None
  {
    var built := [Checkout(req.base), CheckoutNew(req.head)];
    for i := 0 to |req.files|
      invariant AllSafe(req.files[..i]) && built == BuiltSoFar(req, i)
    {
      var cleanPath := PathPolicy.SafeRelativePath(req.files[i].path);
      if cleanPath.Err? {
        return None;
      }
      built := built + [Write(cleanPath.value, "")];
      built := built + [Add(cleanPath.value)];
      BuiltNext(req, i);
    }
    assert req.files[..|req.files|] == req.files;
    built := built + [CommitIndex(req.message), Push(req.head)];
    PlanShown(req);
    return Some(built);
  }

  lemma FileCommandsStep(files: seq<FileChange>, i: nat)
    requires i < |files| && AllSafe(files[..i + 1]) && AllSafe(files[..i])
    ensures FileCommands(files[..i + 1])
            == FileCommands(files[..i]) + [Write(CleanPath(files[i]), files[i].content), Add(CleanPath(files[i]))]
  {
    assert files[..i + 1][..i] == files[..i];
  }

  lemma PlanStep(files: seq<FileChange>, i: nat)
    requires i < |files| && AllSafe(files[..i]) && PathPolicy.SafeRelativePath(files[i].path).Ok?
    ensures AllSafe(files[..i + 1])
    ensures ShownAll(FileCommands(files[..i + 1]))
            == ShownAll(FileCommands(files[..i])) + [Write(CleanPath(files[i]), "")] + [Add(CleanPath(files[i]))]
  {
    assert files[..i + 1][..i] == files[..i];
    FileCommandsStep(files, i);
    ShownPair(FileCommands(files[..i]), CleanPath(files[i]), files[i].content);
  }

  lemma ShownPair(before: seq<Command>, path: string, content: string)
    ensures ShownAll(before + [Write(path, content), Add(path)]) == ShownAll(before) + [Write(path, "")] + [Add(path)]
  {
    ShownAppend(before, [Write(path, content), Add(path)]);
    assert ShownAll([Write(path, content), Add(path)]) == [Write(path, "")] + [Add(path)];
  }

  method Execute(repo: Repository, req: Request, fates: seq<Fate>, revOk: bool) returns (result: Result<Executed, RunError>)
    requires repo.Valid()
    modifies repo
    ensures repo.Valid()
    ensures var (state, effects, r) := ExecuteEffect(old(repo.state), req, fates, revOk);
            repo.state == state && repo.effects == old(repo.effects) + effects && result == r
  {
    var baseOk := ValidateBranch(req.base);
    if !baseOk {
      return Err(BadBranch);
    }
    var headOk := ValidateBranch(req.head);
    if !headOk {
      return Err(BadBranch);
    }
    if TrimSpace(req.message) == "" {
      return Err(NoMessage);
    }
    if |req.files| == 0 {
      return Err(NoFiles);
    }
    var commands := PlanCommands(req);
    if commands.None? {
      return Err(BadPath);
    }
    if req.dryRun {
      return Ok(Executed(commands.value, None));
    }
    PlanIsListed(req);
    var ok := RunPlan(repo, Plan(req), req, fates);
    if !ok || !revOk {
      return Err(CommandFailed);
    }
    return Ok(Executed(commands.value, Some(HeadCommit(repo.state))));
  }

  /** From `r` on, the commands from the k-th on come to `out`. */
  ghost predicate Comes(r: Repo, plan: seq<Command>, fates: seq<Fate>, k: nat, out: (Repo, nat, bool))
    requires WellFormed(r) && k <= |plan|
    decreases |plan| - k
  {
    if k == |plan| then out == (r, k, true)
    else
      var ran := RunCommand(r, plan[k], FateAt(fates, k));
      if ran.ok then Comes(ran.repo, plan, fates, k + 1, out) else out == (ran.repo, if ran.happened then k + 1 else k, false)
  }

  lemma {:induction false} PerformComes(r: Repo, plan: seq<Command>, fates: seq<Fate>, k: nat)
    requires WellFormed(r) && k <= |plan|
    ensures Comes(r, plan, fates, k, Perform(r, plan, fates, k))
    decreases |plan| - k
  {
    if k < |plan| && RunCommand(r, plan[k], FateAt(fates, k)).ok {
      PerformComes(RunCommand(r, plan[k], FateAt(fates, k)).repo, plan, fates, k + 1);
    }
  }

  /** The first k commands of the plan have run. */
  ghost predicate Reached(state: Repo, effects: seq<Command>, plan: seq<Command>, fates: seq<Fate>, k: nat, r0: Repo, e0: seq<Command>) {
    && WellFormed(r0) && WellFormed(state) && k <= |plan|
    && Comes(state, plan, fates, k, Perform(r0, plan, fates, 0))
    && effects == e0 + plan[..k]
  }

  /** The plan has been run, to its end or to the first failure. */
  ghost predicate Ran(state: Repo, effects: seq<Command>, plan: seq<Command>, fates: seq<Fate>, r0: Repo, e0: seq<Command>, ok: bool)
  {
    && WellFormed(r0)
    && state == Perform(r0, plan, fates, 0).0 && ok == Perform(r0, plan, fates, 0).2
    && effects == e0 + plan[..Perform(r0, plan, fates, 0).1]
  }

  method RunNext(repo: Repository, ghost plan: seq<Command>, fates: seq<Fate>, k: nat, command: Command,
                 ghost r0: Repo, ghost e0: seq<Command>) returns (ok: bool)
    requires repo.Valid() && Reached(repo.state, repo.effects, plan, fates, k, r0, e0)
    requires k < |plan| && plan[k] == command
    modifies repo
    ensures repo.Valid()
    ensures ok ==> Reached(repo.state, repo.effects, plan, fates, k + 1, r0, e0)
    ensures !ok || k + 1 == |plan| ==> Ran(repo.state, repo.effects, plan, fates, r0, e0, ok)
  {
    ok := repo.RunGit(command, FateAt(fates, k));
    assert plan[..k + 1] == plan[..k] + [command];
    assert e0 + (plan[..k] + [command]) == (e0 + plan[..k]) + [command];
  }

  /** The plan's commands at the places the runner runs them. */
  ghost predicate FileStep(plan: seq<Command>, req: Request, i: nat)
    requires AllSafe(req.files) && i < |req.files| && |plan| == 2 * |req.files| + 4
  {
    && plan[2 * i + 2] == Write(CleanPath(req.files[i]), req.files[i].content)
    && plan[2 * i + 3] == Add(CleanPath(req.files[i]))
  }

  ghost predicate PlanFor(plan: seq<Command>, req: Request)
    requires AllSafe(req.files)
  {
    var n := |req.files|;
    && |plan| == 2 * n + 4
    && plan[0] == Checkout(req.base) && plan[1] == CheckoutNew(req.head)
    && plan[2 * n + 2] == CommitIndex(req.message) && plan[2 * n + 3] == Push(req.head)
    && forall i {:trigger FileStep(plan, req, i)} | 0 <= i < n :: FileStep(plan, req, i)
  }

  lemma PlanIsListed(req: Request)
    requires AllSafe(req.files)
    ensures PlanFor(Plan(req), req)
  {
    PlanEnds(req);
    forall i | 0 <= i < |req.files| ensures FileStep(Plan(req), req, i) { PlanMiddle(req, i); }
  }

  /** Two commands, the second only after the first. */
  method RunPair(repo: Repository, ghost plan: seq<Command>, fates: seq<Fate>, k: nat, first: Command, second: Command,
                 ghost r0: Repo, ghost e0: seq<Command>) returns (ok: bool)
    requires repo.Valid() && Reached(repo.state, repo.effects, plan, fates, k, r0, e0)
    requires k + 1 < |plan| && plan[k] == first && plan[k + 1] == second
    modifies repo
    ensures repo.Valid()
    ensures ok ==> Reached(repo.state, repo.effects, plan, fates, k + 2, r0, e0)
    ensures !ok || k + 2 == |plan| ==> Ran(repo.state, repo.effects, plan, fates, r0, e0, ok)
  {
    ok := RunNext(repo, plan, fates, k, first, r0, e0);
    if ok {
      ok := RunNext(repo, plan, fates, k + 1, second, r0, e0);
    }
  }

  /** One file: written, then staged. */
  method WriteOne(repo: Repository, ghost plan: seq<Command>, f: FileChange, fates: seq<Fate>, k: nat, ghost r0: Repo, ghost e0: seq<Command>)
    returns (ok: bool)
    requires repo.Valid() && PathPolicy.SafeRelativePath(f.path).Ok? && Reached(repo.state, repo.effects, plan, fates, k, r0, e0)
    requires k + 2 < |plan| && plan[k] == Write(CleanPath(f), f.content) && plan[k + 1] == Add(CleanPath(f))
    modifies repo
    ensures repo.Valid()
    ensures ok ==> Reached(repo.state, repo.effects, plan, fates, k + 2, r0, e0)
    ensures !ok ==> Ran(repo.state, repo.effects, plan, fates, r0, e0, ok)
  {
    var cleanPath := PathPolicy.SafeRelativePath(f.path).value;
    ok := RunPair(repo, plan, fates, k, Write(cleanPath, f.content), Add(cleanPath), r0, e0);
  }

  method WriteFiles(repo: Repository, ghost plan: seq<Command>, req: Request, fates: seq<Fate>, ghost r0: Repo, ghost e0: seq<Command>)
    returns (ok: bool)
    requires repo.Valid() && AllSafe(req.files) && PlanFor(plan, req)
    requires Reached(repo.state, repo.effects, plan, fates, 2, r0, e0)
    modifies repo
    ensures repo.Valid()
    ensures ok ==> Reached(repo.state, repo.effects, plan, fates, 2 * |req.files| + 2, r0, e0)
    ensures !ok ==> Ran(repo.state, repo.effects, plan, fates, r0, e0, ok)
  {
    var k := 2;
    for i := 0 to |req.files|
      invariant repo.Valid() && k == 2 * i + 2 && Reached(repo.state, repo.effects, plan, fates, k, r0, e0)
    {
      assert FileStep(plan, req, i);
      ok := WriteOne(repo, plan, req.files[i], fates, k, r0, e0);
      if !ok {
        return;
      }
      k := k + 2;
    }
    return true;
  }

  /** The commands themselves, each run only if the one before it succeeded. */
  method RunPlan(repo: Repository, ghost plan: seq<Command>, req: Request, fates: seq<Fate>) returns (ok: bool)
    requires repo.Valid() && AllSafe(req.files) && PlanFor(plan, req)
    modifies repo
    ensures repo.Valid() && Ran(repo.state, repo.effects, plan, fates, old(repo.state), old(repo.effects), ok)
  {
    ghost var r0, e0 := repo.state, repo.effects;
    PerformComes(r0, plan, fates, 0);
    ok := RunPair(repo, plan, fates, 0, Checkout(req.base), CheckoutNew(req.head), r0, e0);
    if !ok {
      return;
    }
    ok := WriteFiles(repo, plan, req, fates, r0, e0);
    if !ok {
      return;
    }
    ok := RunPair(repo, plan, fates, 2 * |req.files| + 2, CommitIndex(req.message), Push(req.head), r0, e0);
  }

  // ---------- rollback ----------

  datatype RolledBack = RolledBack(repo: Repo, effects: seq<Command>, ok: bool)

  /** Back to base, then both deletions, whether or not the first works. */
  function RollbackEffect(r: Repo, base: string, head: string, fates: seq<Fate>): (out: RolledBack)
    requires WellFormed(r)
    ensures WellFormed(out.repo)
  {
    var c0, c1, c2 := Checkout(base), DeleteLocal(head), DeleteRemote(head);
    var back := RunCommand(r, c0, FateAt(fates, 0));
    var e0 := if back.happened then [c0] else [];
    if !back.ok then RolledBack(back.repo, e0, false)
    else
      var here := RunCommand(back.repo, c1, FateAt(fates, 1));
      var there := RunCommand(here.repo, c2, FateAt(fates, 2));
      RolledBack(there.repo, e0 + (if here.happened then [c1] else []) + (if there.happened then [c2] else []), here.ok && there.ok)
  }

  method RollbackBranch(repo: Repository, base: string, head: string, dryRun: bool, fates: seq<Fate>)
    returns (result: Result<seq<Command>, RunError>)
    requires repo.Valid()
    modifies repo
    ensures repo.Valid()
    ensures var refused := !ValidBranch(base) || !ValidBranch(head);
            var out := if refused || dryRun then RolledBack(old(repo.state), [], true) else RollbackEffect(old(repo.state), base, head, fates);
            && repo.state == out.repo && repo.effects == old(repo.effects) + out.effects
            && result == if refused then Err(BadBranch)
                         else if out.ok then Ok([Checkout(base), DeleteLocal(head), DeleteRemote(head)])
                         else Err(CommandFailed)
  {
    var baseOk := ValidateBranch(base);
    if !baseOk {
      return Err(BadBranch);
    }
    var headOk := ValidateBranch(head);
    if !headOk {
      return Err(BadBranch);
    }
    var commands := [Checkout(base), DeleteLocal(head), DeleteRemote(head)];
    if dryRun {
      return Ok(commands);
    }
    var back := repo.RunGit(Checkout(base), FateAt(fates, 0));
    if !back {
      return Err(CommandFailed);
    }
    var here := repo.RunGit(DeleteLocal(head), FateAt(fates, 1));
    var there := repo.RunGit(DeleteRemote(head), FateAt(fates, 2));
    if !here || !there {
      return Err(CommandFailed);
    }
    return Ok(commands);
  }
}

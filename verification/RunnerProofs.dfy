/** What a successful `Execute` commits, and what a rollback after it restores. */
module RunnerProofs {
  import opened Wrappers
  import opened Git
  import opened CodeOps
  import opened Paths
  import opened Text
  import PathPolicy

  // ---------- checkout ----------

  /** The commit a branch name means: the local branch, or else the remote-tracking one. */
  function BaseCommit(r: Repo, base: string): Commit
    requires base in r.local || base in r.tracking
  {
    if base in r.local then r.local[base] else r.tracking[base]
  }

  function LocalWithBase(r: Repo, base: string): map<string, Commit>
    requires base in r.local || base in r.tracking
  {
    r.local[base := BaseCommit(r, base)]
  }

  /** Something other than HEAD's content is staged at the path. */
  predicate StagedAt(r: Repo, p: string)
    requires WellFormed(r)
  {
    Get(r.index, p) != Get(HeadCommit(r).tree, p)
  }

  lemma CarriedGet(r: Repo, current: Tree, target: Tree, p: string)
    requires WellFormed(r)
    ensures Get(Carried(r, current, target), p) == if ChangedAt(r, p) then Get(current, p) else Get(target, p)
  {
  }

  lemma NotOverwritten(r: Repo, target: Tree, p: string)
    requires WellFormed(r) && !Overwrites(r, target) && ChangedAt(r, p)
    ensures Get(HeadCommit(r).tree, p) == Get(target, p)
  {
    assert p in HeadCommit(r).tree.Keys + r.index.Keys + r.work.Keys;
  }

  /** A checkout that succeeds moves HEAD, keeps what is staged and otherwise takes the branch's tree. */
  lemma SwitchOutcome(r: Repo, branch: string, p: string)
    requires WellFormed(r) && branch in r.local && SwitchTo(r, branch).Some?
    ensures var r' := SwitchTo(r, branch).value;
            && r' == r.(head := OnBranch(branch), index := r'.index, work := r'.work)
            && Get(r'.index, p) == (if StagedAt(r, p) then Get(r.index, p) else Get(r.local[branch].tree, p))
            && (StagedAt(r, p) ==> Get(HeadCommit(r).tree, p) == Get(r.local[branch].tree, p))
            && (!ChangedAt(r, p) ==> Get(r'.work, p) == Get(r.local[branch].tree, p))
  {
    var target := r.local[branch].tree;
    CarriedGet(r, r.index, target, p);
    CarriedGet(r, r.work, target, p);
    if ChangedAt(r, p) { NotOverwritten(r, target, p); }
  }

  lemma SwitchClean(r: Repo, branch: string)
    requires WellFormed(r) && CleanTree(r) && branch in r.local && SwitchTo(r, branch).Some?
    ensures SwitchTo(r, branch).value.index == SwitchTo(r, branch).value.work == r.local[branch].tree
  {
    var r' := SwitchTo(r, branch).value;
    forall p ensures Get(r'.index, p) == Get(r.local[branch].tree, p) && Get(r'.work, p) == Get(r.local[branch].tree, p) {
      SwitchOutcome(r, branch, p);
    }
    SameTree(r'.index, r.local[branch].tree);
    SameTree(r'.work, r.local[branch].tree);
  }

  /** The local base branch exists from here on; its creation changes nothing a checkout looks at. */
  function WithBase(r: Repo, base: string): Repo
    requires base in r.local || base in r.tracking
  {
    r.(local := LocalWithBase(r, base))
  }

  lemma CheckoutIsSwitch(r: Repo, base: string)
    requires WellFormed(r) && StepCheckout(r, base).Some?
    ensures base in r.local || base in r.tracking
    ensures WellFormed(WithBase(r, base)) && HeadCommit(WithBase(r, base)) == HeadCommit(r)
    ensures base in WithBase(r, base).local && StepCheckout(r, base) == SwitchTo(WithBase(r, base), base)
  {
    assert base in r.local ==> LocalWithBase(r, base) == r.local;
  }

  // ---------- running the plan ----------

  /** From `at` the commands from the k-th up to the m-th all take effect and end at `final`. */
  ghost predicate Leads(at: Repo, plan: seq<Command>, k: nat, m: nat, final: Repo)
    requires k <= m <= |plan|
    decreases m - k
  {
    && WellFormed(at)
    && if k == m then at == final else Step(at, plan[k]).Some? && Leads(Step(at, plan[k]).value, plan, k + 1, m, final)
  }

  /** Whatever fails, a run leaves what the commands that took effect, one after the other, lead to. */
  lemma {:induction false} PerformLeads(at: Repo, plan: seq<Command>, fates: seq<Fate>, k: nat)
    requires WellFormed(at) && k <= |plan|
    ensures Leads(at, plan, k, Perform(at, plan, fates, k).1, Perform(at, plan, fates, k).0)
    decreases |plan| - k
  {
    if k < |plan| && RunCommand(at, plan[k], FateAt(fates, k)).ok {
      PerformLeads(Step(at, plan[k]).value, plan, fates, k + 1);
    }
  }

  datatype FileWrite = FileWrite(path: string, content: string)

  /** What the files write, in order. */
  function Writes(files: seq<FileChange>): (ws: seq<FileWrite>)
    requires AllSafe(files)
    ensures |ws| == |files|
  {
    seq(|files|, i requires 0 <= i < |files| => FileWrite(CleanPath(files[i]), files[i].content))
  }

  /** What the first n writes last leave at a path. */
  function LastWrite(ws: seq<FileWrite>, n: nat, p: string): Option<string>
    requires n <= |ws|
    decreases n
  {
    if n == 0 then None
    else if ws[n - 1].path == p then Some(ws[n - 1].content)
    else LastWrite(ws, n - 1, p)
  }

  function Or(a: Option<string>, b: Option<string>): Option<string> {
    if a.Some? then a else b
  }

  /** `t'` is `t` overlaid with the first n writes in order. */
  ghost predicate Overlaid(t: Tree, ws: seq<FileWrite>, n: nat, t': Tree)
    requires n <= |ws|
  {
    forall p :: Get(t', p) == Or(LastWrite(ws, n, p), Get(t, p))
  }

  /** From `r` to `r'` only the first n writes were made and staged. */
  ghost predicate Staged(r: Repo, ws: seq<FileWrite>, n: nat, r': Repo)
    requires n <= |ws|
  {
    && r' == r.(index := r'.index, work := r'.work)
    && Overlaid(r.index, ws, n, r'.index) && Overlaid(r.work, ws, n, r'.work)
  }

  lemma OverlaidOne(t: Tree, ws: seq<FileWrite>, i: nat, t': Tree)
    requires i < |ws| && Overlaid(t, ws, i, t')
    ensures Overlaid(t, ws, i + 1, t'[ws[i].path := ws[i].content])
  {
  }

  function WithFile(r: Repo, p: string, content: string): Repo {
    r.(work := r.work[p := content], index := r.index[p := content])
  }

  lemma WriteThenAdd(at: Repo, plan: seq<Command>, k: nat, p: string, content: string, m: nat, final: Repo)
    requires k + 1 < m <= |plan| && plan[k] == Write(p, content) && plan[k + 1] == Add(p) && Leads(at, plan, k, m, final)
    ensures Leads(WithFile(at, p, content), plan, k + 2, m, final)
  {
    var written := at.(work := at.work[p := content]);
    assert Step(at, Write(p, content)) == Some(written);
    assert Leads(written, plan, k + 1, m, final);
    assert Step(written, Add(p)) == Some(WithFile(at, p, content));
  }

  lemma StagedOne(r: Repo, ws: seq<FileWrite>, i: nat, at: Repo)
    requires i < |ws| && Staged(r, ws, i, at)
    ensures Staged(r, ws, i + 1, WithFile(at, ws[i].path, ws[i].content))
  {
    OverlaidOne(r.index, ws, i, at.index);
    OverlaidOne(r.work, ws, i, at.work);
  }

  /** All files from the i-th on, written and staged. */
  function WithFiles(at: Repo, ws: seq<FileWrite>, i: nat): Repo
    requires i <= |ws|
    decreases |ws| - i
  {
    if i == |ws| then at else WithFiles(WithFile(at, ws[i].path, ws[i].content), ws, i + 1)
  }

  ghost predicate ListsWrite(plan: seq<Command>, ws: seq<FileWrite>, i: nat)
    requires i < |ws| && |plan| == 2 * |ws| + 4
  {
    plan[2 * i + 2] == Write(ws[i].path, ws[i].content) && plan[2 * i + 3] == Add(ws[i].path)
  }

  /** The plan's commands from the third on are those writes. */
  ghost predicate ListsWrites(plan: seq<Command>, ws: seq<FileWrite>) {
    |plan| == 2 * |ws| + 4 && forall i {:trigger ListsWrite(plan, ws, i)} | 0 <= i < |ws| :: ListsWrite(plan, ws, i)
  }

  lemma PlanListsWrites(req: Request)
    requires AllSafe(req.files)
    ensures ListsWrites(Plan(req), Writes(req.files))
  {
    forall i | 0 <= i < |req.files| ensures ListsWrite(Plan(req), Writes(req.files), i) { PlanMiddle(req, i); }
  }

  lemma {:induction false} FilesPerformed(plan: seq<Command>, ws: seq<FileWrite>, i: nat, at: Repo, m: nat, final: Repo)
    requires ListsWrites(plan, ws) && i <= |ws| && 2 * |ws| + 2 <= m <= |plan| && Leads(at, plan, 2 * i + 2, m, final)
    ensures Leads(WithFiles(at, ws, i), plan, 2 * |ws| + 2, m, final)
    decreases |ws| - i
  {
    if i < |ws| {
      assert ListsWrite(plan, ws, i);
      WriteThenAdd(at, plan, 2 * i + 2, ws[i].path, ws[i].content, m, final);
      FilesPerformed(plan, ws, i + 1, WithFile(at, ws[i].path, ws[i].content), m, final);
    }
  }

  lemma {:induction false} FilesStaged(r: Repo, ws: seq<FileWrite>, i: nat, at: Repo)
    requires i <= |ws| && Staged(r, ws, i, at)
    ensures Staged(r, ws, |ws|, WithFiles(at, ws, i))
    decreases |ws| - i
  {
    if i < |ws| {
      StagedOne(r, ws, i, at);
      FilesStaged(r, ws, i + 1, WithFile(at, ws[i].path, ws[i].content));
    }
  }

  /** The repository between the two checkouts and the first write. */
  function Branched(r: Repo, req: Request): Repo
    requires WellFormed(r) && StepCheckout(r, req.base).Some?
  {
    var based := StepCheckout(r, req.base).value;
    based.(local := based.local[req.head := HeadCommit(based)], head := OnBranch(req.head))
  }

  lemma FirstTwo(r: Repo, plan: seq<Command>, req: Request, m: nat, final: Repo)
    requires 2 <= m <= |plan| && plan[0] == Checkout(req.base) && plan[1] == CheckoutNew(req.head) && Leads(r, plan, 0, m, final)
    ensures StepCheckout(r, req.base).Some? && req.head !in StepCheckout(r, req.base).value.local
    ensures Leads(Branched(r, req), plan, 2, m, final)
  {
    var based := StepCheckout(r, req.base).value;
    assert Step(r, plan[0]) == Some(based);
    assert Leads(based, plan, 1, m, final);
    assert Step(based, plan[1]) == Some(Branched(r, req));
  }

  lemma LastTwo(at: Repo, plan: seq<Command>, k: nat, c: Command, d: Command, final: Repo)
    requires k + 2 == |plan| && plan[k] == c && plan[k + 1] == d && Leads(at, plan, k, |plan|, final)
    ensures WellFormed(at) && Step(at, c).Some? && Step(Step(at, c).value, d) == Some(final)
  {
    var next := Step(at, c).value;
    assert Leads(next, plan, k + 1, |plan|, final);
    assert Leads(Step(next, d).value, plan, k + 2, |plan|, final);
  }

  lemma LastOne(at: Repo, plan: seq<Command>, k: nat, final: Repo)
    requires k + 1 <= |plan| && Leads(at, plan, k, k + 1, final)
    ensures Step(at, plan[k]) == Some(final)
  {
    assert Leads(Step(at, plan[k]).value, plan, k + 1, k + 1, final);
  }

  lemma AllFilesPerformed(branched: Repo, plan: seq<Command>, ws: seq<FileWrite>, m: nat, final: Repo) returns (staged: Repo)
    requires ListsWrites(plan, ws) && 2 * |ws| + 2 <= m <= |plan| && Leads(branched, plan, 2, m, final)
    ensures Staged(branched, ws, |ws|, staged) && Leads(staged, plan, 2 * |ws| + 2, m, final)
  {
    staged := WithFiles(branched, ws, 0);
    FilesPerformed(plan, ws, 0, branched, m, final);
    FilesStaged(branched, ws, 0, branched);
  }

  /** The plan, command by command. */
  ghost predicate Lists(plan: seq<Command>, req: Request, ws: seq<FileWrite>) {
    && ListsWrites(plan, ws) && plan[0] == Checkout(req.base) && plan[1] == CheckoutNew(req.head)
    && plan[2 * |ws| + 2] == CommitIndex(req.message) && plan[2 * |ws| + 3] == Push(req.head)
  }

  lemma PlanLists(req: Request)
    requires AllSafe(req.files)
    ensures Lists(Plan(req), req, Writes(req.files))
  {
    PlanListsWrites(req);
    PlanEnds(req);
  }

  lemma Beginning(r: Repo, plan: seq<Command>, req: Request, ws: seq<FileWrite>, m: nat, final: Repo) returns (staged: Repo)
    requires Lists(plan, req, ws) && 2 * |ws| + 2 <= m <= |plan| && Leads(r, plan, 0, m, final)
    ensures StepCheckout(r, req.base).Some? && req.head !in StepCheckout(r, req.base).value.local
    ensures Staged(Branched(r, req), ws, |ws|, staged) && Leads(staged, plan, 2 * |ws| + 2, m, final)
  {
    FirstTwo(r, plan, req, m, final);
    staged := AllFilesPerformed(Branched(r, req), plan, ws, m, final);
  }

  lemma Ending(staged: Repo, plan: seq<Command>, req: Request, ws: seq<FileWrite>, final: Repo)
    requires Lists(plan, req, ws) && Leads(staged, plan, 2 * |ws| + 2, |plan|, final)
    ensures WellFormed(staged) && Step(staged, CommitIndex(req.message)).Some?
    ensures Step(Step(staged, CommitIndex(req.message)).value, Push(req.head)) == Some(final)
  {
    var k := 2 * |ws| + 2;
    assert k + 2 == |plan|;
    LastTwo(staged, plan, k, CommitIndex(req.message), Push(req.head), final);
  }

  /** The end of a run in which the commit was made, whether or not it was pushed. */
  lemma CommitEnding(staged: Repo, plan: seq<Command>, req: Request, ws: seq<FileWrite>, m: nat, final: Repo)
    requires Lists(plan, req, ws) && 2 * |ws| + 3 <= m <= |plan| && Leads(staged, plan, 2 * |ws| + 2, m, final)
    ensures WellFormed(staged) && Step(staged, CommitIndex(req.message)).Some?
    ensures var committed := Step(staged, CommitIndex(req.message)).value;
            final == committed || Step(committed, Push(req.head)) == Some(final)
  {
    if m == |plan| { Ending(staged, plan, req, ws, final); } else { LastOne(staged, plan, 2 * |ws| + 2, final); }
  }

  lemma StagesOf(r: Repo, plan: seq<Command>, req: Request, ws: seq<FileWrite>, final: Repo) returns (staged: Repo)
    requires Lists(plan, req, ws) && Leads(r, plan, 0, |plan|, final)
    ensures StepCheckout(r, req.base).Some? && req.head !in StepCheckout(r, req.base).value.local
    ensures WellFormed(staged) && Staged(Branched(r, req), ws, |ws|, staged)
    ensures Step(staged, CommitIndex(req.message)).Some?
    ensures Step(Step(staged, CommitIndex(req.message)).value, Push(req.head)) == Some(final)
  {
    staged := Beginning(r, plan, req, ws, |plan|, final);
    Ending(staged, plan, req, ws, final);
  }

  /** The stages of a plan that runs to its end. */
  lemma PlanStages(r: Repo, req: Request, fates: seq<Fate>) returns (staged: Repo)
    requires WellFormed(r) && AllSafe(req.files) && Perform(r, Plan(req), fates, 0).2
    ensures StepCheckout(r, req.base).Some? && req.head !in StepCheckout(r, req.base).value.local
    ensures WellFormed(staged) && Staged(Branched(r, req), Writes(req.files), |req.files|, staged)
    ensures Step(staged, CommitIndex(req.message)).Some?
    ensures Step(Step(staged, CommitIndex(req.message)).value, Push(req.head)) == Some(Perform(r, Plan(req), fates, 0).0)
  {
    PlanLists(req);
    PerformLeads(r, Plan(req), fates, 0);
    staged := StagesOf(r, Plan(req), req, Writes(req.files), Perform(r, Plan(req), fates, 0).0);
  }

  lemma PlanStart(r: Repo, req: Request, fates: seq<Fate>)
    requires WellFormed(r) && AllSafe(req.files) && Perform(r, Plan(req), fates, 0).2
    ensures StepCheckout(r, req.base).Some? && req.head !in StepCheckout(r, req.base).value.local
  {
    var staged := PlanStages(r, req, fates);
  }

  // ---------- what a successful Execute commits ----------

  /** The state after a plan that ran to its end: the new commit on top of base's, on the new branch,
      here and at the remote; nothing else moved, but for a local base branch created on the way. */
  ghost predicate CommittedAs(r: Repo, req: Request, r': Repo, c: Commit)
    requires req.base in r.local || req.base in r.tracking
  {
    && c.Commit? && c.parent == BaseCommit(r, req.base) && c.message == req.message
    && r'.local == LocalWithBase(r, req.base)[req.head := c]
    && r'.remote == r.remote[req.head := c] && r'.tracking == r.tracking[req.head := c]
    && r'.head == OnBranch(req.head) && r'.index == c.tree
  }

  lemma CommitAndPush(staged: Repo, req: Request)
    requires WellFormed(staged) && staged.head == OnBranch(req.head)
    requires Step(staged, CommitIndex(req.message)).Some?
    requires Step(Step(staged, CommitIndex(req.message)).value, Push(req.head)).Some?
    ensures var c := Commit(HeadCommit(staged), staged.index, req.message);
            Step(Step(staged, CommitIndex(req.message)).value, Push(req.head)).value
            == staged.(local := staged.local[req.head := c], remote := staged.remote[req.head := c], tracking := staged.tracking[req.head := c])
  {
  }

  lemma BranchedFields(r: Repo, req: Request)
    requires WellFormed(r) && StepCheckout(r, req.base).Some?
    ensures req.base in r.local || req.base in r.tracking
    ensures var b := Branched(r, req);
            && b.local == LocalWithBase(r, req.base)[req.head := BaseCommit(r, req.base)]
            && b.remote == r.remote && b.tracking == r.tracking && b.head == OnBranch(req.head)
            && HeadCommit(b) == BaseCommit(r, req.base)
  {
    CheckoutIsSwitch(r, req.base);
    SwitchOutcome(WithBase(r, req.base), req.base, "");
  }

  lemma CommitFromStaged(r: Repo, req: Request, staged: Repo)
    requires WellFormed(r) && StepCheckout(r, req.base).Some? && WellFormed(staged) && staged == Branched(r, req).(index := staged.index, work := staged.work)
    requires Step(staged, CommitIndex(req.message)).Some?
    requires Step(Step(staged, CommitIndex(req.message)).value, Push(req.head)).Some?
    ensures req.base in r.local || req.base in r.tracking
    ensures var r' := Step(Step(staged, CommitIndex(req.message)).value, Push(req.head)).value; CommittedAs(r, req, r', HeadCommit(r'))
  {
    BranchedFields(r, req);
    CommitAndPush(staged, req);
    var local := LocalWithBase(r, req.base);
    var c := Commit(BaseCommit(r, req.base), staged.index, req.message);
    assert local[req.head := BaseCommit(r, req.base)][req.head := c] == local[req.head := c];
  }

  /** Main result: what a successful `Execute` leaves. */
  lemma ExecuteCommits(r: Repo, req: Request, fates: seq<Fate>)
    requires WellFormed(r) && AllSafe(req.files) && Perform(r, Plan(req), fates, 0).2
    ensures req.base in r.local || req.base in r.tracking
    ensures var r' := Perform(r, Plan(req), fates, 0).0; CommittedAs(r, req, r', HeadCommit(r'))
  {
    var staged := PlanStages(r, req, fates);
    CommitFromStaged(r, req, staged);
  }

  lemma BranchedIndex(r: Repo, req: Request, p: string)
    requires WellFormed(r) && StepCheckout(r, req.base).Some?
    ensures req.base in r.local || req.base in r.tracking
    ensures Get(Branched(r, req).index, p) == if StagedAt(r, p) then Get(r.index, p) else Get(BaseCommit(r, req.base).tree, p)
    ensures StagedAt(r, p) ==> Get(r.index, p) != Get(BaseCommit(r, req.base).tree, p)
  {
    CheckoutIsSwitch(r, req.base);
    SwitchOutcome(WithBase(r, req.base), req.base, p);
  }

  /** Was the commit made? It is the last command but one. */
  predicate Committed(r: Repo, req: Request, fates: seq<Fate>)
    requires WellFormed(r) && AllSafe(req.files)
  {
    Perform(r, Plan(req), fates, 0).1 >= 2 * |req.files| + 3
  }

  lemma CommitStages(r: Repo, plan: seq<Command>, req: Request, ws: seq<FileWrite>, m: nat, final: Repo) returns (staged: Repo)
    requires Lists(plan, req, ws) && 2 * |ws| + 3 <= m <= |plan| && Leads(r, plan, 0, m, final)
    ensures StepCheckout(r, req.base).Some? && WellFormed(staged) && Staged(Branched(r, req), ws, |ws|, staged)
    ensures Step(staged, CommitIndex(req.message)).Some?
    ensures var committed := Step(staged, CommitIndex(req.message)).value;
            final == committed || Step(committed, Push(req.head)) == Some(final)
  {
    staged := Beginning(r, plan, req, ws, m, final);
    CommitEnding(staged, plan, req, ws, m, final);
  }

  lemma CommitKeeps(staged: Repo, req: Request, final: Repo)
    requires WellFormed(staged) && staged.head == OnBranch(req.head) && Step(staged, CommitIndex(req.message)).Some?
    requires var committed := Step(staged, CommitIndex(req.message)).value;
             final == committed || Step(committed, Push(req.head)) == Some(final)
    ensures WellFormed(final) && HeadCommit(final) == Commit(HeadCommit(staged), staged.index, req.message)
    ensures staged.index == final.index && final.work == staged.work
  {
  }

  lemma FinalIsStaged(r: Repo, req: Request, fates: seq<Fate>) returns (staged: Repo)
    requires WellFormed(r) && AllSafe(req.files) && Committed(r, req, fates)
    ensures StepCheckout(r, req.base).Some? && Staged(Branched(r, req), Writes(req.files), |req.files|, staged)
    ensures var r' := Perform(r, Plan(req), fates, 0).0;
            HeadCommit(r').tree == staged.index == r'.index && r'.work == staged.work
  {
    PlanLists(req);
    PerformLeads(r, Plan(req), fates, 0);
    var (final, m, _) := Perform(r, Plan(req), fates, 0);
    staged := CommitStages(r, Plan(req), req, Writes(req.files), m, final);
    CommitKeeps(staged, req, final);
  }

  /** Main result: the committed tree, path by path, whether or not the push that follows works: the last
      write to the path if there is one, else what was staged before the call, else base's content. */
  lemma CommittedTree(r: Repo, req: Request, fates: seq<Fate>, p: string)
    requires WellFormed(r) && AllSafe(req.files) && Committed(r, req, fates)
    ensures req.base in r.local || req.base in r.tracking
    ensures Get(HeadCommit(Perform(r, Plan(req), fates, 0).0).tree, p)
            == Or(LastWrite(Writes(req.files), |req.files|, p), if StagedAt(r, p) then Get(r.index, p) else Get(BaseCommit(r, req.base).tree, p))
  {
    var staged := FinalIsStaged(r, req, fates);
    BranchedIndex(r, req, p);
  }

  /** Main result: a successful `Execute` commits base's tree overlaid with the files in order, all other
      paths unchanged, exactly when every path that had something staged beforehand is among the files. */
  lemma CommitIsOverlay(r: Repo, req: Request, fates: seq<Fate>)
    requires WellFormed(r) && AllSafe(req.files) && Perform(r, Plan(req), fates, 0).2
    ensures req.base in r.local || req.base in r.tracking
    ensures Overlaid(BaseCommit(r, req.base).tree, Writes(req.files), |req.files|, HeadCommit(Perform(r, Plan(req), fates, 0).0).tree)
            <==> forall p | StagedAt(r, p) :: LastWrite(Writes(req.files), |req.files|, p).Some?
  {
    var c := HeadCommit(Perform(r, Plan(req), fates, 0).0);
    ExecuteCommits(r, req, fates);
    var base := BaseCommit(r, req.base).tree;
    var ws := Writes(req.files);
    forall p ensures Get(c.tree, p) == Or(LastWrite(ws, |ws|, p), Get(base, p)) <==> (StagedAt(r, p) ==> LastWrite(ws, |ws|, p).Some?) {
      CommittedTree(r, req, fates, p);
      PlanStart(r, req, fates);
      BranchedIndex(r, req, p);
    }
  }

  lemma LetterIsSafe()
    ensures PathPolicy.SafeRelativePath("a") == Ok("a")
  {
    TrimSpaceFixpoint("a");
    assert "a"[1..] == "" && Split("", '/') == [""];
    assert ['a'] + "" == "a" && ["a"] + [] == ["a"] && Split("a", '/') == Prepend('a', [""]);
    assert NormalForm("a") == ["a"] by { assert ["a"][1..] == [] && [] + ["a"] == ["a"]; }
  }

  lemma PerformNext(r: Repo, plan: seq<Command>, k: nat, next: Repo)
    requires WellFormed(r) && k < |plan| && Step(r, plan[k]) == Some(next)
    ensures Perform(r, plan, [], k) == Perform(next, plan, [], k + 1)
  {
  }

  const TRUNK := Root(map[])
  const STAGED := Repo(map["main" := TRUNK], map["main" := TRUNK], map["main" := TRUNK], OnBranch("main"),
                       map["b" := "x"], map["b" := "x"])

  lemma CheckoutKeepsStaged()
    ensures Step(STAGED, Checkout("main")) == Some(STAGED)
  {
    forall p ensures Get(Carried(STAGED, STAGED.index, TRUNK.tree), p) == Get(STAGED.index, p) {
      CarriedGet(STAGED, STAGED.index, TRUNK.tree, p);
    }
    SameTree(Carried(STAGED, STAGED.index, TRUNK.tree), STAGED.index);
  }

  const BRANCHED := STAGED.(local := STAGED.local["fix" := TRUNK], head := OnBranch("fix"))
  const ADDED := BRANCHED.(work := map["b" := "x", "a" := "y"], index := map["b" := "x", "a" := "y"])

  lemma RunToAdd(plan: seq<Command>)
    requires |plan| == 6 && plan[0] == Checkout("main") && plan[1] == CheckoutNew("fix")
    requires plan[2] == Write("a", "y") && plan[3] == Add("a")
    ensures WellFormed(ADDED) && Perform(STAGED, plan, [], 0) == Perform(ADDED, plan, [], 4)
  {
    CheckoutKeepsStaged();
    var written := BRANCHED.(work := map["b" := "x", "a" := "y"]);
    PerformNext(STAGED, plan, 0, STAGED);
    PerformNext(STAGED, plan, 1, BRANCHED);
    PerformNext(BRANCHED, plan, 2, written);
    PerformNext(written, plan, 3, ADDED);
  }

  lemma RunToEnd(plan: seq<Command>)
    requires |plan| == 6 && plan[4] == CommitIndex("m") && plan[5] == Push("fix")
    ensures Perform(ADDED, plan, [], 4).2 && HeadCommit(Perform(ADDED, plan, [], 4).0).tree == ADDED.index
  {
    var c := Commit(TRUNK, ADDED.index, "m");
    var committed := ADDED.(local := ADDED.local["fix" := c]);
    assert "b" in ADDED.index && "b" !in TRUNK.tree;
    PerformNext(ADDED, plan, 4, committed);
    PerformNext(committed, plan, 5, committed.(remote := committed.remote["fix" := c], tracking := committed.tracking["fix" := c]));
  }

  /** A concrete staged change that is swept into the commit. */
  lemma StagedChangeIsSwept(req: Request)
    requires req == Request("main", "fix", "m", [FileChange("a", "y")], false)
    ensures WellFormed(STAGED) && AllSafe(req.files) && Perform(STAGED, Plan(req), [], 0).2
    ensures HeadCommit(Perform(STAGED, Plan(req), [], 0).0).tree == map["b" := "x", "a" := "y"]
  {
    LetterIsSafe();
    PlanEnds(req);
    PlanMiddle(req, 0);
    RunToAdd(Plan(req));
    RunToEnd(Plan(req));
  }

  lemma CleanStays(r: Repo, req: Request, fates: seq<Fate>)
    requires WellFormed(r) && AllSafe(req.files) && CleanTree(r) && Perform(r, Plan(req), fates, 0).2
    ensures CleanTree(Perform(r, Plan(req), fates, 0).0)
  {
    var staged := FinalIsStaged(r, req, fates);
    var branched := Branched(r, req);
    CheckoutIsSwitch(r, req.base);
    SwitchClean(WithBase(r, req.base), req.base);
    forall p ensures Get(staged.index, p) == Get(staged.work, p) {
      assert Get(branched.index, p) == Get(branched.work, p);
    }
    SameTree(staged.index, staged.work);
  }

  // ---------- rollback ----------

  /** Where a successful `Execute` and a successful rollback after it lead. */
  ghost predicate RestoredAs(r: Repo, base: string, head: string, r': Repo)
    requires base in r.local || base in r.tracking
  {
    && r'.local == LocalWithBase(r, base)
    && r'.remote == r.remote - {head} && r'.tracking == r.tracking - {head}
    && r'.head == OnBranch(base) && r'.index == BaseCommit(r, base).tree == r'.work
  }

  lemma RollbackFrom(r: Repo, base: string, head: string, c: Commit, r1: Repo, fates: seq<Fate>)
    requires WellFormed(r1) && CleanTree(r1) && (base in r.local || base in r.tracking)
    requires r1.local == LocalWithBase(r, base)[head := c] && head !in LocalWithBase(r, base)
    requires r1.remote == r.remote[head := c] && r1.tracking == r.tracking[head := c]
    requires RollbackEffect(r1, base, head, fates).ok
    ensures RestoredAs(r, base, head, RollbackEffect(r1, base, head, fates).repo)
  {
    var back := StepCheckout(r1, base);
    assert base in r1.local;
    SwitchClean(r1, base);
    assert LocalWithBase(r, base)[head := c] - {head} == LocalWithBase(r, base);
    assert r.remote[head := c] - {head} == r.remote - {head};
    assert r.tracking[head := c] - {head} == r.tracking - {head};
  }

  /** Main result: from a clean tree, a successful `Execute` undone by a successful rollback leaves HEAD,
      index and work tree at base and all branches as they were, but for the local base branch it may have
      created and the head branch it takes away. */
  lemma RollbackUndoesExecute(r: Repo, req: Request, fates: seq<Fate>, undo: seq<Fate>)
    requires WellFormed(r) && AllSafe(req.files) && CleanTree(r) && Perform(r, Plan(req), fates, 0).2
    requires RollbackEffect(Perform(r, Plan(req), fates, 0).0, req.base, req.head, undo).ok
    ensures req.base in r.local || req.base in r.tracking
    ensures RestoredAs(r, req.base, req.head, RollbackEffect(Perform(r, Plan(req), fates, 0).0, req.base, req.head, undo).repo)
  {
    var r1 := Perform(r, Plan(req), fates, 0).0;
    ExecuteCommits(r, req, fates);
    CleanStays(r, req, fates);
    PlanStart(r, req, fates);
    CheckoutIsSwitch(r, req.base);
    SwitchOutcome(WithBase(r, req.base), req.base, "");
    RollbackFrom(r, req.base, req.head, HeadCommit(r1), r1, undo);
  }

  /** Main result: what is restored, exactly: the local branches when base was one of them, the remote
      branches when head was fresh there, and everything when, besides, base was checked out. */
  lemma RollbackRestores(r: Repo, req: Request, fates: seq<Fate>, undo: seq<Fate>)
    requires WellFormed(r) && AllSafe(req.files) && CleanTree(r) && Perform(r, Plan(req), fates, 0).2
    requires RollbackEffect(Perform(r, Plan(req), fates, 0).0, req.base, req.head, undo).ok
    ensures var r' := RollbackEffect(Perform(r, Plan(req), fates, 0).0, req.base, req.head, undo).repo;
            && (r'.local == r.local <==> req.base in r.local)
            && (r'.remote == r.remote <==> req.head !in r.remote)
            && (r' == r <==> r.head == OnBranch(req.base) && req.head !in r.remote && req.head !in r.tracking)
  {
    RollbackUndoesExecute(r, req, fates, undo);
    RemovedKey(r.remote, req.head);
    RemovedKey(r.tracking, req.head);
    assert req.base in r.local ==> LocalWithBase(r, req.base) == r.local;
  }

  lemma RemovedKey(m: map<string, Commit>, key: string)
    ensures m - {key} == m <==> key !in m
  {
    if key in m { assert key !in m - {key}; }
  }

  lemma CleanNeverOverwrites(r: Repo, target: Tree)
    requires WellFormed(r) && CleanTree(r)
    ensures !Overwrites(r, target)
  {
  }

  lemma RollbackFromClean(r: Repo, base: string, head: string)
    requires WellFormed(r) && CleanTree(r) && base in r.local && head in r.local && head in r.remote && head != base
    ensures RollbackEffect(r, base, head, []).ok
  {
    CleanNeverOverwrites(r, r.local[base].tree);
  }

  /** After a successful `Execute` from a clean tree, a rollback nothing interferes with always succeeds. */
  lemma UndisturbedRollbackWorks(r: Repo, req: Request, fates: seq<Fate>)
    requires WellFormed(r) && AllSafe(req.files) && CleanTree(r) && Perform(r, Plan(req), fates, 0).2
    ensures RollbackEffect(Perform(r, Plan(req), fates, 0).0, req.base, req.head, []).ok
  {
    var r1 := Perform(r, Plan(req), fates, 0).0;
    ExecuteCommits(r, req, fates);
    CleanStays(r, req, fates);
    HeadIsNew(r, req, fates);
    RollbackFromClean(r1, req.base, req.head);
  }

  lemma HeadIsNew(r: Repo, req: Request, fates: seq<Fate>)
    requires WellFormed(r) && AllSafe(req.files) && Perform(r, Plan(req), fates, 0).2
    ensures req.base in r.local || req.base in r.tracking
    ensures req.head !in LocalWithBase(r, req.base) && req.head != req.base
  {
    PlanStart(r, req, fates);
    CheckoutIsSwitch(r, req.base);
    SwitchOutcome(WithBase(r, req.base), req.base, "");
  }

  // ---------- rollbacks that do not restore ----------

  function Fix(): Request { Request("main", "fix", "m", [FileChange("a", "y")], false) }

  lemma FixPlan()
    ensures AllSafe(Fix().files) && |Plan(Fix())| == 6
    ensures Plan(Fix())[0] == Checkout("main") && Plan(Fix())[1] == CheckoutNew("fix") && Plan(Fix())[2] == Write("a", "y")
    ensures Plan(Fix())[3] == Add("a") && Plan(Fix())[4] == CommitIndex("m") && Plan(Fix())[5] == Push("fix")
  {
    LetterIsSafe();
    PlanEnds(Fix());
    PlanMiddle(Fix(), 0);
  }

  /** A repository with nothing in it but an empty first commit. */
  predicate Bare(r: Repo) {
    WellFormed(r) && r.index == map[] && r.work == map[] && HeadCommit(r) == TRUNK
  }

  lemma BareCheckout(r: Repo)
    requires Bare(r) && ("main" in r.local || "main" in r.tracking) && BaseCommit(r, "main") == TRUNK
    ensures Step(r, Checkout("main")) == Some(WithBase(r, "main").(head := OnBranch("main")))
  {
    var based := WithBase(r, "main");
    assert "main" in r.local ==> LocalWithBase(r, "main") == r.local;
    CleanNeverOverwrites(based, map[]);
    SwitchClean(based, "main");
  }

  lemma FixRuns(r: Repo)
    requires Bare(r) && ("main" in r.local || "main" in r.tracking) && BaseCommit(r, "main") == TRUNK
    requires "fix" !in r.local && ("fix" in r.remote ==> r.remote["fix"] == TRUNK)
    ensures CleanTree(r) && AllSafe(Fix().files) && Perform(r, Plan(Fix()), [], 0).2
  {
    FixPlan();
    BareCheckout(r);
    var based := WithBase(r, "main").(head := OnBranch("main"));
    var branched := based.(local := based.local["fix" := TRUNK], head := OnBranch("fix"));
    PerformNext(r, Plan(Fix()), 0, based);
    PerformNext(based, Plan(Fix()), 1, branched);
    FixEnds(branched, Plan(Fix()));
  }

  lemma FixEnds(branched: Repo, plan: seq<Command>)
    requires Bare(branched) && branched.head == OnBranch("fix") && ("fix" in branched.remote ==> branched.remote["fix"] == TRUNK)
    requires |plan| == 6 && plan[2] == Write("a", "y") && plan[3] == Add("a") && plan[4] == CommitIndex("m") && plan[5] == Push("fix")
    ensures Perform(branched, plan, [], 2).2
  {
    var written := branched.(work := map["a" := "y"]);
    var added := written.(index := map["a" := "y"]);
    var c := Commit(TRUNK, added.index, "m");
    var committed := added.(local := added.local["fix" := c]);
    assert "a" in added.index && "a" !in TRUNK.tree && IsAncestor(TRUNK, c);
    PerformNext(branched, plan, 2, written);
    PerformNext(written, plan, 3, added);
    PerformNext(added, plan, 4, committed);
    PerformNext(committed, plan, 5, committed.(remote := committed.remote["fix" := c], tracking := committed.tracking["fix" := c]));
  }

  /** A head branch that was at the remote before is gone after `Execute` and rollback, both successful. */
  lemma RollbackTakesRemoteHead(r: Repo)
    requires r == Repo(map["main" := TRUNK], map["main" := TRUNK, "fix" := TRUNK], map["main" := TRUNK], OnBranch("main"), map[], map[])
    ensures WellFormed(r) && AllSafe(Fix().files) && Perform(r, Plan(Fix()), [], 0).2
    ensures var undone := RollbackEffect(Perform(r, Plan(Fix()), [], 0).0, "main", "fix", []);
            undone.ok && "fix" in r.remote && undone.repo.remote == map["main" := TRUNK]
  {
    FixRuns(r);
    UndisturbedRollbackWorks(r, Fix(), []);
    RollbackUndoesExecute(r, Fix(), [], []);
    assert r.remote - {"fix"} == map["main" := TRUNK];
  }

  /** A base branch known only from the remote stays behind as a local one. */
  lemma RollbackKeepsLocalBase(r: Repo)
    requires r == Repo(map["dev" := TRUNK], map["main" := TRUNK], map["main" := TRUNK], OnBranch("dev"), map[], map[])
    ensures WellFormed(r) && AllSafe(Fix().files) && Perform(r, Plan(Fix()), [], 0).2
    ensures var undone := RollbackEffect(Perform(r, Plan(Fix()), [], 0).0, "main", "fix", []);
            undone.ok && "main" !in r.local && undone.repo.local == map["dev" := TRUNK, "main" := TRUNK]
  {
    FixRuns(r);
    UndisturbedRollbackWorks(r, Fix(), []);
    RollbackUndoesExecute(r, Fix(), [], []);
  }

  // ---------- what Execute reports ----------

  /** A successful `Execute` reports the commit it made, which is head's, here and at the remote; a dry run
      reports none and touches nothing. */
  lemma ExecuteReportsItsCommit(r: Repo, req: Request, fates: seq<Fate>, revOk: bool)
    requires WellFormed(r) && ExecuteEffect(r, req, fates, revOk).2.Ok?
    ensures var (r', effects, result) := ExecuteEffect(r, req, fates, revOk);
            if req.dryRun then r' == r && effects == [] && result.value.commit == None
            else
              && req.head in r'.local && req.head in r'.remote && result.value.commit == Some(r'.local[req.head]) == Some(r'.remote[req.head])
              && (req.base in r.local || req.base in r.tracking) && r'.local[req.head].Commit? && r'.local[req.head].parent == BaseCommit(r, req.base)
              && r'.local[req.head].message == req.message
  {
    if !req.dryRun { ExecuteCommits(r, req, fates); }
  }

  /** A request is refused for the first thing wrong with it: a branch name, a blank message, no files, or
      an unsafe path; and then nothing is touched. */
  lemma RefusedRequests(r: Repo, req: Request, fates: seq<Fate>, revOk: bool)
    requires WellFormed(r)
    ensures var (r', effects, result) := ExecuteEffect(r, req, fates, revOk);
            var branches := ValidBranch(req.base) && ValidBranch(req.head);
            var message := branches && TrimSpace(req.message) != "";
            var files := message && req.files != [];
            var paths := files && forall i | 0 <= i < |req.files| :: PathPolicy.SafeRelativePath(req.files[i].path).Ok?;
            && (result == Err(BadBranch) <==> !branches)
            && (result == Err(NoMessage) <==> branches && !message)
            && (result == Err(NoFiles) <==> message && !files)
            && (result == Err(BadPath) <==> files && !paths)
            && (!paths ==> r' == r && effects == [])
            && (paths && req.dryRun ==> result.Ok? && r' == r && effects == [])
  {
  }

  // ---------- the plan and the policy ----------

  function PathsOf(files: seq<FileChange>): (paths: seq<string>)
    ensures |paths| == |files|
  {
    seq(|files|, i requires 0 <= i < |files| => files[i].path)
  }

  lemma CommandsComeFromFiles(files: seq<FileChange>, k: nat) returns (i: nat)
    requires AllSafe(files) && k < 2 * |files|
    ensures i < |files|
    ensures FileCommands(files)[k] == Write(CleanPath(files[i]), files[i].content) || FileCommands(files)[k] == Add(CleanPath(files[i]))
  {
    i := k / 2;
    FileCommandsAt(files, i);
    assert k == 2 * i || k == 2 * i + 1;
  }

  /** A planned write or staging is of an allowed path. */
  ghost predicate Allowed(prefixes: seq<string>, files: seq<FileChange>, c: Command) {
    c.Write? || c.Add? ==>
      && !PathPolicy.ForbiddenBy(prefixes, c.path)
      && exists i | 0 <= i < |files| :: PathPolicy.CanonicalizePath(files[i].path) == Ok(c.path)
  }

  lemma FileCommandsAllowed(prefixes: seq<string>, files: seq<FileChange>, k: nat, c: Command)
    requires PathPolicy.FirstViolation(prefixes, PathsOf(files)) == None && AllSafe(files)
    requires k < 2 * |files| && c == FileCommands(files)[k]
    ensures Allowed(prefixes, files, c)
  {
    var i := CommandsComeFromFiles(files, k);
    PathPolicy.WrittenPathsAreAllowed(prefixes, PathsOf(files), i, CleanPath(files[i]));
  }

  lemma PlanPart(req: Request, k: nat)
    requires AllSafe(req.files) && k < |Plan(req)|
    ensures if 2 <= k < 2 * |req.files| + 2 then Plan(req)[k] == FileCommands(req.files)[k - 2] else !Plan(req)[k].Write? && !Plan(req)[k].Add?
  {
  }

  lemma PlanAllowed(prefixes: seq<string>, req: Request, k: nat, c: Command)
    requires AllSafe(req.files) && forall j | 0 <= j < 2 * |req.files| :: Allowed(prefixes, req.files, FileCommands(req.files)[j])
    requires k < |Plan(req)| && c == Plan(req)[k]
    ensures Allowed(prefixes, req.files, c)
  {
    PlanPart(req, k);
  }

  /** Main result: when the path policy let the request through, whatever `Execute` writes or stages,
      in whatever run, is a canonical path the policy checked, and no forbidden prefix matches it. */
  lemma OnlyAllowedPathsTouched(prefixes: seq<string>, r: Repo, req: Request, fates: seq<Fate>, revOk: bool, k: nat)
    requires WellFormed(r)
    ensures var effects := ExecuteEffect(r, req, fates, revOk).1;
            PathPolicy.FirstViolation(prefixes, PathsOf(req.files)) == None && k < |effects| ==> Allowed(prefixes, req.files, effects[k])
  {
    if PathPolicy.FirstViolation(prefixes, PathsOf(req.files)) == None && k < |ExecuteEffect(r, req, fates, revOk).1| {
      forall j | 0 <= j < 2 * |req.files| ensures Allowed(prefixes, req.files, FileCommands(req.files)[j]) {
        FileCommandsAllowed(prefixes, req.files, j, FileCommands(req.files)[j]);
      }
      PlanAllowed(prefixes, req, k, Plan(req)[k]);
    }
  }
}

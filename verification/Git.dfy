/** A repository with one remote, as far as the runner's git commands observe it. */
module Git {
  import opened Wrappers

  type Tree = map<string, string>

  function Get(t: Tree, path: string): Option<string> {
    if path in t then Some(t[path]) else None
  }

  lemma SameTree(a: Tree, b: Tree)
    requires forall p :: Get(a, p) == Get(b, p)
    ensures a == b
  {
    assert forall p :: p in a <==> Get(a, p).Some?;
    assert forall p :: p in b <==> Get(b, p).Some?;
    forall p | p in a ensures a[p] == b[p] { assert Get(a, p) == Get(b, p); }
  }

  /** A commit is identified by its whole history. */
  datatype Commit = Root(tree: Tree) | Commit(parent: Commit, tree: Tree, message: string)
  datatype Head = OnBranch(name: string) | Detached(commit: Commit)

  /** Local branches, branches of the remote, remote-tracking branches, HEAD, index and work tree. */
  datatype Repo = Repo(local: map<string, Commit>, remote: map<string, Commit>, tracking: map<string, Commit>,
                       head: Head, index: Tree, work: Tree)

  predicate WellFormed(r: Repo) { r.head.OnBranch? ==> r.head.name in r.local }

  function HeadCommit(r: Repo): Commit
    requires WellFormed(r)
  {
    if r.head.OnBranch? then r.local[r.head.name] else r.head.commit
  }

  predicate IsAncestor(a: Commit, b: Commit) { a == b || (b.Commit? && IsAncestor(a, b.parent)) }

  /** Nothing staged, nothing modified, nothing untracked. */
  predicate CleanTree(r: Repo)
    requires WellFormed(r)
  {
    r.index == HeadCommit(r).tree == r.work
  }

  datatype Command =
    | Checkout(branch: string)
    | CheckoutNew(branch: string)
    | Write(path: string, content: string)
    | Add(path: string)
    | CommitIndex(message: string)
    | Push(branch: string)
    | DeleteLocal(branch: string)
    | DeleteRemote(branch: string)

  // ---------- checkout ----------

  /** Local changes at a path survive a checkout. */
  predicate ChangedAt(r: Repo, p: string)
    requires WellFormed(r)
  {
    Get(r.index, p) != Get(HeadCommit(r).tree, p) || Get(r.work, p) != Get(r.index, p)
  }

  /** A checkout is refused when it would have to update a path with local changes. */
  predicate Overwrites(r: Repo, target: Tree)
    requires WellFormed(r)
  {
    exists p | p in HeadCommit(r).tree.Keys + r.index.Keys + r.work.Keys ::
      ChangedAt(r, p) && Get(HeadCommit(r).tree, p) != Get(target, p)
  }

  function Carried(r: Repo, current: Tree, target: Tree): Tree
    requires WellFormed(r)
  {
    map p | p in current.Keys + target.Keys && (if ChangedAt(r, p) then p in current else p in target)
      :: if ChangedAt(r, p) then current[p] else target[p]
  }

  function SwitchTo(r: Repo, branch: string): Option<Repo>
    requires WellFormed(r) && branch in r.local
  {
    var target := r.local[branch].tree;
    if Overwrites(r, target) then None
    else Some(r.(head := OnBranch(branch), index := Carried(r, r.index, target), work := Carried(r, r.work, target)))
  }

  /** An unknown local branch is created from the remote-tracking branch of the same name. */
  function StepCheckout(r: Repo, branch: string): Option<Repo>
    requires WellFormed(r)
  {
    if branch in r.local then SwitchTo(r, branch)
    else if branch in r.tracking then SwitchTo(r.(local := r.local[branch := r.tracking[branch]]), branch)
    else None
  }

  // ---------- all commands ----------

  function CommitOn(r: Repo, c: Commit): Repo {
    match r.head
    case OnBranch(b) => r.(local := r.local[b := c])
    case Detached(_) => r.(head := Detached(c))
  }

  /** What git does when nothing outside the repository interferes; `None` when it refuses. */
  function Step(r: Repo, command: Command): (r': Option<Repo>)
    requires WellFormed(r)
    ensures r'.Some? ==> WellFormed(r'.value)
  {
    match command
    case Checkout(b) => StepCheckout(r, b)
    case CheckoutNew(b) =>
      if b in r.local then None else Some(r.(local := r.local[b := HeadCommit(r)], head := OnBranch(b)))
    case Write(p, content) => Some(r.(work := r.work[p := content]))
    case Add(p) => if p in r.work then Some(r.(index := r.index[p := r.work[p]])) else None
    case CommitIndex(m) =>
      if r.index == HeadCommit(r).tree then None else Some(CommitOn(r, Commit(HeadCommit(r), r.index, m)))
    case Push(b) =>
      if b in r.local && (b !in r.remote || IsAncestor(r.remote[b], r.local[b])) then
        Some(r.(remote := r.remote[b := r.local[b]], tracking := r.tracking[b := r.local[b]]))
      else None
    case DeleteLocal(b) =>
      if b in r.local && r.head != OnBranch(b) then Some(r.(local := r.local - {b})) else None
    case DeleteRemote(b) =>
      if b in r.remote then Some(r.(remote := r.remote - {b}, tracking := r.tracking - {b})) else None
  }

  /** A command may also fail for reasons of its own, before or after it took effect. */
  datatype Fate = Runs | Fails(happened: bool)

  function FateAt(fates: seq<Fate>, k: nat): Fate {
    if k < |fates| then fates[k] else Runs
  }

  /** One command under a fate: the new state, whether it took effect, whether it reported success. */
  datatype Ran = Ran(repo: Repo, happened: bool, ok: bool)

  function RunCommand(r: Repo, command: Command, fate: Fate): (ran: Ran)
    requires WellFormed(r)
    ensures WellFormed(ran.repo) && (ran.ok ==> ran.happened)
  {
    var next := Step(r, command);
    match fate
    case Runs => if next.Some? then Ran(next.value, true, true) else Ran(r, false, false)
    case Fails(happened) => if happened && next.Some? then Ran(next.value, true, false) else Ran(r, false, false)
  }

  /** Running a list of commands from the k-th on, up to the first that reports failure: the state, how
      many took effect, and whether all went well. */
  function Perform(r: Repo, commands: seq<Command>, fates: seq<Fate>, k: nat): (out: (Repo, nat, bool))
    requires WellFormed(r) && k <= |commands|
    ensures WellFormed(out.0) && k <= out.1 <= |commands| && (out.2 ==> out.1 == |commands|)
    decreases |commands| - k
  {
    if k == |commands| then (r, k, true)
    else
      var ran := RunCommand(r, commands[k], FateAt(fates, k));
      if ran.ok then Perform(ran.repo, commands, fates, k + 1) else (ran.repo, if ran.happened then k + 1 else k, false)
  }

  /** The repository on disk, with the commands that took effect on it. */
  class Repository {
    var state: Repo
    ghost var effects: seq<Command>

    ghost predicate Valid()
      reads this
    {
      WellFormed(state)
    }

    constructor (r: Repo)
      requires WellFormed(r)
      ensures Valid() && state == r && effects == []
    {
      state := r;
      effects := [];
    }

    method RunGit(command: Command, fate: Fate) returns (ok: bool)
      requires Valid()
      modifies this
      ensures Valid()
      ensures var ran := RunCommand(old(state), command, fate);
              && state == ran.repo && ok == ran.ok
              && effects == old(effects) + if ran.happened then [command] else []
    {
      var ran := RunCommand(state, command, fate);
      state, ok := ran.repo, ran.ok;
      if ran.happened {
        effects := effects + [command];
      }
    }
  }
}

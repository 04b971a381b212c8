/** The migration runner: one transaction a file, resumable after a failure at any point. */
module Migrate {

  datatype Migration = Migration(version: string, text: string)

  /** What the database does to one file. A failing commit may still have taken effect. */
  datatype Fate = Smooth | CheckFails | ReadFails | BeginFails | ApplyFails | RecordFails | CommitFails(applied: bool)

  function FateAt(fates: seq<Fate>, k: nat): Fate {
    if k < |fates| then fates[k] else Smooth
  }

  /** The schema and the version table, in order of commitment. */
  datatype Db<S> = Db(schema: S, versions: seq<string>)

  /** What a migration text does to the schema. */
  type Semantics<!S> = (S, string) -> S

  function Applied<S>(db: Db<S>, apply: Semantics<S>, m: Migration): Db<S> {
    Db(apply(db.schema, m.text), db.versions + [m.version])
  }

  datatype Outcome<S> = Outcome(db: Db<S>, ok: bool)

  /** The loop from the k-th file on; the first error ends it. */
  function RunFrom<S>(db: Db<S>, apply: Semantics<S>, files: seq<Migration>, fates: seq<Fate>, k: nat): Outcome<S>
    requires k <= |files|
    decreases |files| - k
  {
    if k == |files| then Outcome(db, true)
    else
      var fate := FateAt(fates, k);
      if fate == CheckFails then Outcome(db, false)
      else if files[k].version in db.versions then RunFrom(db, apply, files, fates, k + 1)
      else if fate == Smooth then RunFrom(Applied(db, apply, files[k]), apply, files, fates, k + 1)
      else Outcome(if fate == CommitFails(true) then Applied(db, apply, files[k]) else db, false)
  }

  /** One start of the gateway; `tableOk` says whether the version table could be created or found. */
  datatype Start = Start(tableOk: bool, fates: seq<Fate>)

  function RunOnce<S>(db: Db<S>, apply: Semantics<S>, files: seq<Migration>, s: Start): Outcome<S> {
    if s.tableOk then RunFrom(db, apply, files, s.fates, 0) else Outcome(db, false)
  }

  // ---------- the runner ----------

  class Database<S(==)> {
    var schema: S
    var versions: seq<string>
    const initial: S
    const apply: Semantics<S>

    function View(): Db<S>
      reads this
    {
      Db(schema, versions)
    }

    constructor (initial: S, apply: Semantics<S>)
      ensures View() == Db(initial, []) && this.initial == initial && this.apply == apply
    {
      schema, versions, this.initial, this.apply := initial, [], initial, apply;
    }

    method ApplyMigrations(files: seq<Migration>, s: Start) returns (ok: bool)
      modifies this
      ensures Outcome(View(), ok) == RunOnce(old(View()), apply, files, s)
      ensures forall n | 0 <= n <= |files| && Distinct(files) && old(View()) == Prefix(initial, apply, files, n) ::
                exists n' | n <= n' <= |files| :: View() == Prefix(initial, apply, files, n') && (ok ==> n' == |files|)
      ensures ok && Distinct(files) && old(View()) == Db(initial, []) ==> schema == Fold(initial, apply, files) && versions == Names(files)
    {
      if Distinct(files) { StartExtendsPrefix(initial, apply, files, s, View()); }
      if !s.tableOk {
        return false;
      }
      for k := 0 to |files|
        invariant RunFrom(View(), apply, files, s.fates, k) == RunFrom(old(View()), apply, files, s.fates, 0)
      {
        var fate := FateAt(s.fates, k);
        if fate == CheckFails {
          return false;
        }
        var already := files[k].version in versions;
        if already {
          continue;
        }
        if fate == ReadFails || fate == BeginFails {
          return false;
        }
        // inside the transaction: nothing shows before the commit
        var newSchema := apply(schema, files[k].text);
        if fate == ApplyFails {
          return false;
        }
        var newVersions := versions + [files[k].version];
        if fate == RecordFails {
          return false;
        }
        if fate == CommitFails(false) {
          return false;
        }
        schema, versions := newSchema, newVersions;
        if fate == CommitFails(true) {
          return false;
        }
      }
      return true;
    }
  }

  // ---------- what is applied ----------

  /** File names in one directory differ. */
  ghost predicate Distinct(files: seq<Migration>) {
    forall i, j | 0 <= i < j < |files| :: files[i].version != files[j].version
  }

  function Names(files: seq<Migration>): seq<string> {
    seq(|files|, i requires 0 <= i < |files| => files[i].version)
  }

  /** The texts run one after the other. */
  function Fold<S>(schema: S, apply: Semantics<S>, files: seq<Migration>): S {
    if files == [] then schema else Fold(apply(schema, files[0].text), apply, files[1..])
  }

  lemma {:induction false} FoldOneMore<S>(schema: S, apply: Semantics<S>, files: seq<Migration>, n: nat)
    requires n < |files|
    ensures Fold(schema, apply, files[..n + 1]) == apply(Fold(schema, apply, files[..n]), files[n].text)
    decreases n
  {
    assert files[..n + 1][1..] == files[1..][..n];
    if n > 0 {
      assert files[..n][1..] == files[1..][..n - 1];
      FoldOneMore(apply(schema, files[0].text), apply, files[1..], n - 1);
    }
  }

  /** The database that holds the first n files, all of each: their names as versions, their texts in the schema. */
  function Prefix<S>(initial: S, apply: Semantics<S>, files: seq<Migration>, n: nat): Db<S>
    requires n <= |files|
  {
    Db(Fold(initial, apply, files[..n]), Names(files[..n]))
  }

  lemma PrefixOneMore<S>(initial: S, apply: Semantics<S>, files: seq<Migration>, n: nat)
    requires n < |files|
    ensures Applied(Prefix(initial, apply, files, n), apply, files[n]) == Prefix(initial, apply, files, n + 1)
  {
    FoldOneMore(initial, apply, files, n);
  }

  lemma InPrefix<S>(initial: S, apply: Semantics<S>, files: seq<Migration>, n: nat, k: nat)
    requires Distinct(files) && n <= |files| && k < |files|
    ensures files[k].version in Prefix(initial, apply, files, n).versions <==> k < n
  {
    var versions := Prefix(initial, apply, files, n).versions;
    if k < n { assert versions[k] == files[k].version; }
  }

  /** From a prefix the loop leaves a prefix, never a shorter one, and success means all of it. */
  lemma {:induction false} RunExtendsPrefix<S>(initial: S, apply: Semantics<S>, files: seq<Migration>, fates: seq<Fate>, k: nat, n: nat)
    returns (n': nat)
    requires Distinct(files) && k <= |files| && n <= |files|
    requires k <= n || n == k
    ensures n <= n' <= |files|
    ensures RunFrom(Prefix(initial, apply, files, n), apply, files, fates, k).db == Prefix(initial, apply, files, n')
    ensures RunFrom(Prefix(initial, apply, files, n), apply, files, fates, k).ok ==> n' == |files|
    decreases |files| - k
  {
    n' := n;
    if k < |files| {
      InPrefix(initial, apply, files, n, k);
      var fate := FateAt(fates, k);
      if fate != CheckFails {
        if k < n {
          n' := RunExtendsPrefix(initial, apply, files, fates, k + 1, n);
        } else if fate == Smooth {
          PrefixOneMore(initial, apply, files, n);
          n' := RunExtendsPrefix(initial, apply, files, fates, k + 1, n + 1);
        } else if fate == CommitFails(true) {
          PrefixOneMore(initial, apply, files, n);
          n' := n + 1;
        }
      }
    }
  }

  lemma StartExtendsPrefix<S>(initial: S, apply: Semantics<S>, files: seq<Migration>, s: Start, db: Db<S>)
    requires Distinct(files)
    ensures forall n | 0 <= n <= |files| && db == Prefix(initial, apply, files, n) ::
              exists n' | n <= n' <= |files| ::
                && RunOnce(db, apply, files, s).db == Prefix(initial, apply, files, n') && (RunOnce(db, apply, files, s).ok ==> n' == |files|)
    ensures db == Db(initial, []) && RunOnce(db, apply, files, s).ok ==>
              RunOnce(db, apply, files, s).db == Db(Fold(initial, apply, files), Names(files))
  {
    forall n | 0 <= n <= |files| && db == Prefix(initial, apply, files, n)
      ensures exists n' | n <= n' <= |files| ::
                && RunOnce(db, apply, files, s).db == Prefix(initial, apply, files, n') && (RunOnce(db, apply, files, s).ok ==> n' == |files|)
    {
      var n' := n;
      if s.tableOk { n' := RunExtendsPrefix(initial, apply, files, s.fates, 0, n); }
      assert RunOnce(db, apply, files, s).db == Prefix(initial, apply, files, n');
    }
    EmptyPrefix(initial, apply, files);
  }

  lemma EmptyPrefix<S>(initial: S, apply: Semantics<S>, files: seq<Migration>)
    ensures Prefix(initial, apply, files, 0) == Db(initial, [])
    ensures Prefix(initial, apply, files, |files|) == Db(Fold(initial, apply, files), Names(files))
  {
    assert files[..|files|] == files && files[..0] == [] && Names([]) == [];
  }

  /** Does file k end a start on the first n files? A file already there is only looked up. */
  predicate Faulty(fates: seq<Fate>, n: nat, k: nat) {
    if k < n then FateAt(fates, k) == CheckFails else FateAt(fates, k) != Smooth
  }

  lemma {:induction false} RunToFault<S>(initial: S, apply: Semantics<S>, files: seq<Migration>, fates: seq<Fate>, k: nat, n: nat, stop: nat)
    requires Distinct(files) && n <= |files| && k <= stop <= |files| && (forall j | k <= j < stop :: !Faulty(fates, n, j))
    requires stop < |files| ==> Faulty(fates, n, stop)
    ensures var m := if k < n then n else k;
            var at := if stop < m then m else stop;
            RunFrom(Prefix(initial, apply, files, m), apply, files, fates, k)
            == if stop == |files| then Outcome(Prefix(initial, apply, files, |files|), true)
               else if stop >= n && FateAt(fates, stop) == CommitFails(true) then Outcome(Prefix(initial, apply, files, stop + 1), false)
               else Outcome(Prefix(initial, apply, files, at), false)
    decreases stop - k
  {
    if k < |files| {
      var m := if k < n then n else k;
      InPrefix(initial, apply, files, m, k);
      if k >= n { PrefixOneMore(initial, apply, files, k); }
      if k < stop {
        RunToFault(initial, apply, files, fates, k + 1, n, stop);
        assert !Faulty(fates, n, k);
        assert RunFrom(Prefix(initial, apply, files, m), apply, files, fates, k)
               == RunFrom(Prefix(initial, apply, files, if k + 1 < n then n else k + 1), apply, files, fates, k + 1);
      }
    }
  }

  /** Main result about one start on the first n files: it succeeds, with all files there, exactly when the
      version table can be had and no file is faulty; else the first faulty file ends it, with the files
      before it there, and that file too when it is its commit that failed and took effect. */
  lemma StartIsExact<S>(initial: S, apply: Semantics<S>, files: seq<Migration>, s: Start, n: nat, stop: nat)
    requires Distinct(files) && n <= |files| && stop <= |files|
    requires (forall j | 0 <= j < stop :: !Faulty(s.fates, n, j)) && (stop < |files| ==> Faulty(s.fates, n, stop))
    ensures RunOnce(Prefix(initial, apply, files, n), apply, files, s)
            == if !s.tableOk then Outcome(Prefix(initial, apply, files, n), false)
               else if stop == |files| then Outcome(Prefix(initial, apply, files, |files|), true)
               else if stop < n then Outcome(Prefix(initial, apply, files, n), false)
               else Outcome(Prefix(initial, apply, files, if FateAt(s.fates, stop) == CommitFails(true) then stop + 1 else stop), false)
  {
    RunToFault(initial, apply, files, s.fates, 0, n, stop);
  }

  // ---------- restarts ----------

  /** The database after a sequence of starts. */
  function AfterStarts<S>(initial: S, apply: Semantics<S>, files: seq<Migration>, starts: seq<Start>): Db<S> {
    if starts == [] then Db(initial, [])
    else RunOnce(AfterStarts(initial, apply, files, starts[..|starts| - 1]), apply, files, starts[|starts| - 1]).db
  }

  /** Main result: whatever fails in whatever start, the versions are the names of the first n files and the
      schema is what their texts, run in order, make of the initial one. */
  lemma {:induction false} AlwaysAPrefix<S>(initial: S, apply: Semantics<S>, files: seq<Migration>, starts: seq<Start>) returns (n: nat)
    requires Distinct(files)
    ensures n <= |files| && AfterStarts(initial, apply, files, starts) == Db(Fold(initial, apply, files[..n]), Names(files[..n]))
  {
    n := 0;
    EmptyPrefix(initial, apply, files);
    if starts != [] {
      n := AlwaysAPrefix(initial, apply, files, starts[..|starts| - 1]);
      var last := starts[|starts| - 1];
      if last.tableOk { n := RunExtendsPrefix(initial, apply, files, last.fates, 0, n); }
    }
  }

  /** Main result: no version is committed twice. */
  lemma CommittedAtMostOnce<S>(initial: S, apply: Semantics<S>, files: seq<Migration>, starts: seq<Start>, i: nat, j: nat)
    requires Distinct(files)
    requires i < j < |AfterStarts(initial, apply, files, starts).versions|
    ensures AfterStarts(initial, apply, files, starts).versions[i] != AfterStarts(initial, apply, files, starts).versions[j]
  {
    var n := AlwaysAPrefix(initial, apply, files, starts);
    assert AfterStarts(initial, apply, files, starts).versions == Names(files[..n]);
  }

  /** Main result: once a start succeeds, however many failed before it, the database is what a single
      uninterrupted run leaves. */
  lemma RestartsEqualOneRun<S>(initial: S, apply: Semantics<S>, files: seq<Migration>, starts: seq<Start>, last: Start)
    requires Distinct(files)
    requires RunOnce(AfterStarts(initial, apply, files, starts), apply, files, last).ok
    ensures RunOnce(AfterStarts(initial, apply, files, starts), apply, files, last)
            == RunOnce(Db(initial, []), apply, files, Start(true, []))
    ensures RunOnce(Db(initial, []), apply, files, Start(true, [])) == Outcome(Db(Fold(initial, apply, files), Names(files)), true)
  {
    var n := AlwaysAPrefix(initial, apply, files, starts);
    var n' := RunExtendsPrefix(initial, apply, files, last.fates, 0, n);
    EmptyPrefix(initial, apply, files);
    SmoothRunSucceeds(Db(initial, []), apply, files, 0);
    var m := RunExtendsPrefix(initial, apply, files, [], 0, 0);
  }

  lemma {:induction false} SmoothRunSucceeds<S>(db: Db<S>, apply: Semantics<S>, files: seq<Migration>, k: nat)
    requires k <= |files|
    ensures RunFrom(db, apply, files, [], k).ok
    decreases |files| - k
  {
    if k < |files| {
      SmoothRunSucceeds(if files[k].version in db.versions then db else Applied(db, apply, files[k]), apply, files, k + 1);
    }
  }

  /** An undisturbed restart always completes, so every failure can be repaired by starting again. */
  lemma UndisturbedStartCompletes<S>(initial: S, apply: Semantics<S>, files: seq<Migration>, starts: seq<Start>)
    requires Distinct(files)
    ensures AfterStarts(initial, apply, files, starts + [Start(true, [])]) == Db(Fold(initial, apply, files), Names(files))
  {
    var last := Start(true, []);
    assert (starts + [last])[..|starts|] == starts;
    SmoothRunSucceeds(AfterStarts(initial, apply, files, starts), apply, files, 0);
    RestartsEqualOneRun(initial, apply, files, starts, last);
  }
}

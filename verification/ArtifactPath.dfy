/** Where an artifact's bytes live: the path `Save` writes and the guarded path `Read` opens. */
module ArtifactPath {
  import opened Text
  import opened Paths
  import opened PathPolicy
  import opened Wrappers

  /** `filepath.Join`: leading empty elements are dropped, the rest joined and cleaned. */
  function JoinPath(elems: seq<string>): string {
    if elems == [] then ""
    else if elems[0] == "" then JoinPath(elems[1..])
    else Clean(Join(elems, "/"))
  }

  function SavePath(baseDir: string, runID: string, artifactID: string): string {
    JoinPath([JoinPath([baseDir, runID]), artifactID])
  }

  function SafePath(baseDir: string, runID: string, artifactID: string): Result<string, PathError> {
    var p := Clean(JoinPath([baseDir, runID, artifactID]));
    if Clean(baseDir) + "/" <= p then Ok(p) else Err(Unsafe)
  }

  // ---------- the guard, for arbitrary identifiers ----------

  lemma RenderBelow(rooted: bool, base: seq<string>, rest: seq<string>)
    requires base != [] && rest != []
    ensures Render(rooted, base + rest) == Render(rooted, base) + "/" + Join(rest, "/")
  {
    JoinAppend(base, rest, "/");
    if rooted {
      assert "/" + (Join(base, "/") + "/" + Join(rest, "/")) == ("/" + Join(base, "/")) + "/" + Join(rest, "/");
    }
  }

  lemma ComponentsOfRender(rooted: bool, stack: seq<string>, ups: nat)
    requires Stacked(stack, ups) && stack != []
    ensures Components(Render(rooted, stack)) == if rooted then [""] + stack else stack
  {
    ComponentsOfJoin(stack, ups);
  }

  lemma ComponentsDecompose(base: string, p: string)
    requires base + "/" <= p
    ensures exists rest: seq<string> :: rest != [] && Components(p) == Components(base) + rest
  {
    var rest := p[|base| + 1..];
    assert p == base + ['/'] + rest;
    SplitAtSeparator(base, '/', rest);
    assert Components(p) == Components(base) + Split(rest, '/');
  }

  lemma BelowStart(base: string, ext: string, p: string)
    requires p == base + "/" + ext
    ensures base + "/" <= p
  {
    var q := base + "/";
    assert q + ext == p;
    assert p[..|q|] == q;
  }

  /** One rendered path starts with another and a slash exactly when its stack strictly extends the other's. */
  lemma StartsBelow(rooted: bool, base: seq<string>, baseUps: nat, n: seq<string>, ups: nat)
    requires Stacked(base, baseUps) && Stacked(n, ups) && base != []
    ensures Render(rooted, base) + "/" <= Render(rooted, n) <==> base < n
  {
    ComponentsOfJoin(base, baseUps);
    assert |Render(rooted, base) + "/"| >= 2;
    if base < n {
      assert n == base + n[|base|..];
      RenderBelow(rooted, base, n[|base|..]);
      BelowStart(Render(rooted, base), Join(n[|base|..], "/"), Render(rooted, n));
    }
    if Render(rooted, base) + "/" <= Render(rooted, n) {
      ComponentsDecompose(Render(rooted, base), Render(rooted, n));
      ComponentsOfRender(rooted, base, baseUps);
      var rest: seq<string> :| rest != [] && Components(Render(rooted, n)) == Components(Render(rooted, base)) + rest;
      if n != [] {
        ComponentsOfRender(rooted, n, ups);
        SameAfterRoot(rooted, n, base, rest);
      }
    }
  }

  lemma SameAfterRoot(rooted: bool, n: seq<string>, base: seq<string>, rest: seq<string>)
    requires rest != []
    requires (if rooted then [""] + n else n) == (if rooted then [""] + base else base) + rest
    ensures n == base + rest && base < n
  {
    if rooted {
      assert ([""] + base) + rest == [""] + (base + rest);
      assert ([""] + n)[1..] == n && ([""] + (base + rest))[1..] == base + rest;
    }
  }

  lemma NothingBelowTrivialBase(rooted: bool, n: seq<string>, ups: nat)
    requires Stacked(n, ups) && (rooted ==> ups == 0)
    ensures !(Render(rooted, []) + "/" <= Render(rooted, n))
  {
    assert "." + "/" == "./" && "/" + "/" == "//";
    if n != [] {
      ComponentsOfJoin(n, ups);
      StackedIsSlashFree(n, ups);
      JoinStart(n, ".");
      assert Join(n, "/")[0] != '/';
      assert n[0] != ".";
    }
  }

  /** The base directories whose cleaned form ends in a slash or is the bare dot. */
  predicate TrivialBase(baseDir: string) {
    Clean(baseDir) == "." || Clean(baseDir) == "/"
  }

  lemma TrivialBaseStack(baseDir: string)
    ensures TrivialBase(baseDir) <==> NormalForm(baseDir) == []
  {
    var n := NormalForm(baseDir);
    NormalFormShape(baseDir);
    if n != [] {
      ComponentsOfJoin(n, Ups(n));
      ComponentsOfRender(Rooted(baseDir), n, Ups(n));
      SplitWithoutSeparator(".", '/');
      assert Components("/") == ["", ""];
    }
  }

  lemma JoinedRooted(baseDir: string, runID: string, artifactID: string)
    requires baseDir != ""
    ensures Rooted(JoinPath([baseDir, runID, artifactID])) == Rooted(baseDir)
    ensures Clean(JoinPath([baseDir, runID, artifactID])) == JoinPath([baseDir, runID, artifactID])
    ensures NormalForm(JoinPath([baseDir, runID, artifactID])) == NormalForm(Join([baseDir, runID, artifactID], "/"))
  {
    var raw := Join([baseDir, runID, artifactID], "/");
    assert raw[0] == baseDir[0];
    NormalFormShape(raw);
    NormalFormOfRender(Rooted(raw), NormalForm(raw), Ups(NormalForm(raw)));
    CleanIdempotent(raw);
  }

  /** The guard is exact for every base directory and every pair of identifiers: a path is
      accepted exactly when the base is not trivial and the joined path's normal form lies
      strictly below the base's. */
  lemma SafePathIsContainment(baseDir: string, runID: string, artifactID: string)
    requires baseDir != ""
    ensures SafePath(baseDir, runID, artifactID).Ok? <==>
            !TrivialBase(baseDir) && NormalForm(baseDir) < NormalForm(JoinPath([baseDir, runID, artifactID]))
  {
    var p := JoinPath([baseDir, runID, artifactID]);
    var base, n := NormalForm(baseDir), NormalForm(p);
    JoinedRooted(baseDir, runID, artifactID);
    NormalFormShape(baseDir);
    NormalFormShape(p);
    TrivialBaseStack(baseDir);
    if base == [] {
      NothingBelowTrivialBase(Rooted(baseDir), n, Ups(n));
    } else {
      StartsBelow(Rooted(baseDir), base, Ups(base), n, Ups(n));
    }
  }

  /** Under a base that does not end in a climb, everything accepted is a chain of plain components below it. */
  lemma SafePathStaysBelow(baseDir: string, runID: string, artifactID: string) returns (below: Node)
    requires baseDir != "" && SafePath(baseDir, runID, artifactID).Ok?
    requires NormalForm(baseDir) != [] && Last(NormalForm(baseDir)) != ".."
    ensures below != [] && AllPlain(below)
    ensures SafePath(baseDir, runID, artifactID).value == Clean(baseDir) + "/" + Join(below, "/")
  {
    var p := JoinPath([baseDir, runID, artifactID]);
    var base, n := NormalForm(baseDir), NormalForm(p);
    SafePathIsContainment(baseDir, runID, artifactID);
    JoinedRooted(baseDir, runID, artifactID);
    NormalFormShape(p);
    below := n[|base|..];
    assert n == base + below;
    assert n[|base| - 1] == Last(base);
    RenderBelow(Rooted(baseDir), base, below);
  }

  // ---------- the guard, for server-made identifiers ----------

  lemma {:induction false} NormalizeAppend(rooted: bool, stack: seq<string>, xs: seq<string>, ys: seq<string>)
    ensures Normalize(rooted, stack, xs + ys) == Normalize(rooted, Normalize(rooted, stack, xs), ys)
    decreases xs
  {
    if xs == [] {
      assert xs + ys == ys;
    } else {
      assert (xs + ys)[0] == xs[0] && (xs + ys)[1..] == xs[1..] + ys;
      NormalizeAppend(rooted, PushComponent(rooted, stack, xs[0]), xs[1..], ys);
    }
  }

  /** Appending one plain component to a path appends it to the normal form. */
  lemma NormalFormBelow(dir: string, name: string)
    requires dir != "" && Plain(name)
    ensures NormalForm(dir + "/" + name) == NormalForm(dir) + [name]
    ensures Rooted(dir + "/" + name) == Rooted(dir)
  {
    var s := dir + "/" + name;
    assert s == dir + ['/'] + name && s[0] == dir[0];
    SplitAtSeparator(dir, '/', name);
    SplitWithoutSeparator(name, '/');
    NormalizeAppend(Rooted(dir), [], Components(dir), [name]);
    NormalizeOne(Rooted(dir), NormalForm(dir), name);
  }

  lemma NormalizeOne(rooted: bool, stack: seq<string>, name: string)
    requires Plain(name)
    ensures Normalize(rooted, stack, [name]) == stack + [name]
  {
    assert [name][1..] == [];
  }

  lemma JoinedNormalForm(baseDir: string, runID: string, artifactID: string)
    requires baseDir != "" && Plain(runID) && Plain(artifactID)
    ensures NormalForm(JoinPath([baseDir, runID, artifactID])) == NormalForm(baseDir) + [runID, artifactID]
    ensures SavePath(baseDir, runID, artifactID) == JoinPath([baseDir, runID, artifactID])
  {
    var dir := baseDir + "/" + runID;
    assert [baseDir, runID, artifactID][1..] == [runID, artifactID] && [baseDir, runID][1..] == [runID];
    assert Join([runID, artifactID], "/") == runID + "/" + artifactID by { assert [runID, artifactID][1..] == [artifactID]; }
    assert Join([baseDir, runID], "/") == dir;
    assert Join([baseDir, runID, artifactID], "/") == dir + "/" + artifactID;
    NormalFormBelow(baseDir, runID);
    NormalFormBelow(dir, artifactID);
    JoinedRooted(baseDir, runID, artifactID);
    assert NormalForm(baseDir) + [runID] + [artifactID] == NormalForm(baseDir) + [runID, artifactID];
    NormalFormShape(dir);
    NormalFormOfRender(Rooted(dir), NormalForm(dir), Ups(NormalForm(dir)));
    var cleanDir := Clean(dir);
    assert cleanDir != "" by { ComponentsOfJoin(NormalForm(dir), Ups(NormalForm(dir))); }
    NormalFormBelow(cleanDir, artifactID);
    assert [cleanDir, artifactID][1..] == [artifactID];
    assert Join([cleanDir, artifactID], "/") == cleanDir + "/" + artifactID;
  }

  /** Main result: what `Save` wrote, `Read` opens, exactly when the configured base directory is
      neither the root nor the current directory; under those two every read is refused. */
  lemma ReadFindsWhatSaveWrote(baseDir: string, runID: string, artifactID: string)
    requires baseDir != "" && Plain(runID) && Plain(artifactID)
    ensures SafePath(baseDir, runID, artifactID) == Ok(SavePath(baseDir, runID, artifactID)) <==> !TrivialBase(baseDir)
    ensures SafePath(baseDir, runID, artifactID).Err? <==> TrivialBase(baseDir)
  {
    JoinedNormalForm(baseDir, runID, artifactID);
    JoinedRooted(baseDir, runID, artifactID);
    SafePathIsContainment(baseDir, runID, artifactID);
    assert NormalForm(baseDir) < NormalForm(baseDir) + [runID, artifactID];
  }

  /** The failing base directories, concretely: the current directory and the root. */
  lemma ReadsRefusedUnderDot(runID: string, artifactID: string)
    requires Plain(runID) && Plain(artifactID)
    ensures SafePath(".", runID, artifactID).Err?
    ensures SafePath("/", runID, artifactID).Err?
  {
    SplitWithoutSeparator(".", '/');
    assert NormalForm(".") == [];
    assert Components("/") == ["", ""];
    NormalizeSkips(true, [], [""]);
    NormalizeSkips(true, [], []);
    ReadFindsWhatSaveWrote(".", runID, artifactID);
    ReadFindsWhatSaveWrote("/", runID, artifactID);
  }

  /** Different artifacts never share a file. */
  lemma SavePathInjective(baseDir: string, r1: string, a1: string, r2: string, a2: string)
    requires baseDir != "" && Plain(r1) && Plain(a1) && Plain(r2) && Plain(a2)
    requires SavePath(baseDir, r1, a1) == SavePath(baseDir, r2, a2)
    ensures r1 == r2 && a1 == a2
  {
    JoinedNormalForm(baseDir, r1, a1);
    JoinedNormalForm(baseDir, r2, a2);
    var n1, n2 := NormalForm(baseDir) + [r1, a1], NormalForm(baseDir) + [r2, a2];
    var k := |NormalForm(baseDir)|;
    assert n1 == n2;
    assert n1[k] == r1 && n2[k] == r2 && n1[k + 1] == a1 && n2[k + 1] == a2;
  }
}

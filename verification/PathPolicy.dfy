/** The gateway's path policy: canonical form of a requested path, forbidden prefixes,
    and the code runner's own, separately written, path check. */
module PathPolicy {
  import opened Text
  import opened Paths
  import opened Wrappers

  datatype PathError = EmptyPath | Traversal | ResolvesToRoot | Absolute | LeadingDash | Unsafe

  // ---------- the two normalisers ----------

  function CanonicalizePath(raw: string): Result<string, PathError> {
    var s := TrimSpace(raw);
    if s == "" then Err(EmptyPath)
    else
      var cleaned := Clean(s);
      if cleaned == ".." || "../" <= cleaned || "..\\" <= cleaned then Err(Traversal)
      else
        var stripped := TrimPrefix(TrimPrefix(cleaned, "/"), "./");
        if stripped == "." then Err(ResolvesToRoot) else Ok(stripped)
  }

  function SafeRelativePath(path: string): Result<string, PathError> {
    var trimmed := TrimPrefix(TrimSpace(path), "./");
    if trimmed == "" then Err(EmptyPath)
    else if "/" <= trimmed then Err(Absolute)
    else if "-" <= trimmed then Err(LeadingDash)
    else
      var cleaned := Clean(trimmed);
      if cleaned == "." || ".." <= cleaned then Err(Unsafe)
      else if "-" <= cleaned then Err(LeadingDash)
      else Ok(cleaned)
  }

  // ---------- canonical paths are walks ----------

  /** What the canonical path should be, by walking the raw path component by component. */
  function WalkedPath(raw: string): Result<string, PathError> {
    var s := TrimSpace(raw);
    if s == "" then Err(EmptyPath)
    else if Rooted(s) then Ok(Join(WalkFromRoot([], Components(s)), "/"))
    else
      match Walk(At([]), Components(s))
      case Above => Err(Traversal)
      case At(node) =>
        if node == [] then Err(ResolvesToRoot)
        else if "..\\" <= node[0] then Err(Traversal)
        else Ok(Join(node, "/"))
  }

  lemma PrefixCharacters(p: string, s: string, c: char)
    ensures c in p && p <= s ==> c in s
  {
    if c in p && p <= s {
      var i :| 0 <= i < |p| && p[i] == c;
      assert s[i] == c;
    }
  }

  /** A slash-free text starts `c/rest` exactly when it starts `c`. */
  lemma StartWithinComponent(c: string, rest: string, p: string)
    requires '/' !in p
    ensures p <= c + "/" + rest <==> p <= c
  {
    var path := c + "/" + rest;
    assert path[|c|] == '/' && c == path[..|c|];
    assert p <= path ==> forall i | 0 <= i < |p| :: p[i] == path[i];
    assert p <= path && |p| <= |c| ==> p == path[..|p|] == c[..|p|];
  }

  lemma StartIsWholeComponent(c: string, rest: string, p: string)
    requires '/' !in p && '/' !in c
    ensures p + "/" <= c + "/" + rest <==> p == c
  {
    var path := c + "/" + rest;
    assert forall i | 0 <= i < |c| :: path[i] == c[i] != '/';
    if p + "/" <= path {
      assert p <= path && path[|p|] == '/';
      StartWithinComponent(c, rest, p);
    }
  }

  /** How a rendered path starts is decided by its first component. */
  lemma JoinStart(comps: seq<string>, p: string)
    requires comps != [] && SlashFree(comps) && '/' !in p
    ensures p + "/" <= Join(comps, "/") <==> |comps| >= 2 && comps[0] == p
    ensures p <= Join(comps, "/") <==> p <= comps[0]
    ensures p == Join(comps, "/") <==> comps == [p]
  {
    var c := comps[0];
    assert '/' !in c;
    if |comps| == 1 {
      assert Join(comps, "/") == c;
      PrefixCharacters(p + "/", c, '/');
      assert (p + "/")[|p|] == '/';
    } else {
      var rest := Join(comps[1..], "/");
      var path := c + "/" + rest;
      assert Join(comps, "/") == path;
      StartWithinComponent(c, rest, p);
      StartIsWholeComponent(c, rest, p);
      assert path[|c|] == '/';
    }
  }

  lemma PlainPathStart(node: Node)
    requires node != [] && AllPlain(node)
    ensures var path := Join(node, "/");
            path != ".." && path != "." && !("../" <= path) && !("/" <= path) && !("./" <= path)
    ensures "..\\" <= Join(node, "/") <==> "..\\" <= node[0]
  {
    JoinStart(node, "..");
    JoinStart(node, ".");
    JoinStart(node, "");
    JoinStart(node, "..\\");
    assert "" + "/" == "/" && ".." + "/" == "../" && "." + "/" == "./";
  }

  lemma ClimbingPathStart(stack: seq<string>)
    requires stack != [] && stack[0] == ".."
    ensures Join(stack, "/") == ".." || "../" <= Join(stack, "/")
  {
    if |stack| > 1 {
      assert Join(stack, "/") == "../" + Join(stack[1..], "/");
    }
  }

  lemma CanonicalRooted(raw: string)
    requires Rooted(TrimSpace(raw))
    ensures CanonicalizePath(raw) == WalkedPath(raw)
  {
    var s := TrimSpace(raw);
    var n, cleaned := NormalForm(s), Clean(s);
    var path := Join(n, "/");
    NormalFormShape(s);
    RootedNormalFormMeaning(s);
    assert cleaned == "/" + path && cleaned[0] == '/' && cleaned[1..] == path;
    assert TrimPrefix(cleaned, "/") == path;
    if n != [] { PlainPathStart(n); }
    assert TrimPrefix(path, "./") == path != ".";
  }

  lemma CanonicalClimbing(raw: string)
    requires TrimSpace(raw) != "" && !Rooted(TrimSpace(raw)) && Ups(NormalForm(TrimSpace(raw))) > 0
    ensures CanonicalizePath(raw) == WalkedPath(raw) == Err(Traversal)
  {
    var s := TrimSpace(raw);
    NormalFormShape(s);
    NormalFormMeaning(s, []);
    ClimbingPathStart(NormalForm(s));
  }

  lemma CleanedStays(raw: string, path: string)
    requires TrimSpace(raw) != "" && Clean(TrimSpace(raw)) == path
    requires path != ".." && path != "." && !("../" <= path) && !("/" <= path) && !("./" <= path)
    ensures CanonicalizePath(raw) == if "..\\" <= path then Err(Traversal) else Ok(path)
  {
  }

  lemma PlainWalk(s: string, n: Node)
    requires !Rooted(s) && n == NormalForm(s) && Ups(n) == 0
    ensures Walk(At([]), Components(s)) == At(n)
  {
    NormalFormMeaning(s, []);
    assert [] + n[0..] == n;
  }

  lemma CanonicalPlain(raw: string)
    requires TrimSpace(raw) != "" && !Rooted(TrimSpace(raw)) && Ups(NormalForm(TrimSpace(raw))) == 0
    ensures CanonicalizePath(raw) == WalkedPath(raw)
  {
    var s := TrimSpace(raw);
    var n := NormalForm(s);
    NormalFormShape(s);
    PlainWalk(s, n);
    if n == [] {
      assert Clean(s) == ".";
    } else {
      PlainPathStart(n);
      CleanedStays(raw, Join(n, "/"));
    }
  }

  /** The string manipulation in `CanonicalizePath` computes exactly the walk: traversal is
      reported when some prefix of the components leaves the root (or the first remaining
      component begins with `..\`), and absolute paths are clamped at the root. */
  lemma CanonicalizeIsWalk(raw: string)
    ensures CanonicalizePath(raw) == WalkedPath(raw)
  {
    var s := TrimSpace(raw);
    if s == "" {
    } else if Rooted(s) {
      CanonicalRooted(raw);
    } else if Ups(NormalForm(s)) > 0 {
      CanonicalClimbing(raw);
    } else {
      CanonicalPlain(raw);
    }
  }

  /** Every accepted non-empty result is a list of plain components, and names the node the walk reached. */
  lemma CanonicalComponents(raw: string)
    requires CanonicalizePath(raw).Ok? && CanonicalizePath(raw).value != ""
    ensures var p := CanonicalizePath(raw).value; AllPlain(Components(p)) && !Rooted(p)
    ensures var p, s := CanonicalizePath(raw).value, TrimSpace(raw);
            if Rooted(s) then Components(p) == WalkFromRoot([], Components(s))
            else Walk(At([]), Components(s)) == At(Components(p))
  {
    CanonicalizeIsWalk(raw);
    var s := TrimSpace(raw);
    var n := NormalForm(s);
    NormalFormShape(s);
    if Rooted(s) {
      RootedNormalFormMeaning(s);
    } else {
      NormalFormMeaning(s, []);
      assert Ups(n) == 0;
      assert [] + n[0..] == n;
    }
    StackedIsSlashFree(n, 0);
    SplitJoin(n, '/');
    PlainPathStart(n);
  }

  // ---------- the two normalisers agree ----------

  lemma CleanSkipsDotSlash(t: string)
    requires t != "" && !Rooted(t)
    ensures Clean("./" + t) == Clean(t)
  {
    SplitAtSeparator(".", '/', t);
    assert "." + ['/'] + t == "./" + t;
    SplitWithoutSeparator(".", '/');
    assert Components("./" + t) == ["."] + Components(t);
    assert (["."] + Components(t))[1..] == Components(t);
  }

  /** What the runner's check demands beyond the policy's. */
  predicate RunnerAccepts(path: string, canonical: string) {
    var trimmed := TrimPrefix(TrimSpace(path), "./");
    trimmed != "" && !("/" <= trimmed) && !("-" <= trimmed) && !(".." <= canonical) && !("-" <= canonical)
  }

  /** The path the runner would write is exactly the path the policy checked; and the runner
      accepts precisely those canonical paths that pass its extra start-of-path tests. */
  lemma NormalisersAgree(path: string, p: string)
    ensures SafeRelativePath(path) == Ok(p) <==> CanonicalizePath(path) == Ok(p) && RunnerAccepts(path, p)
  {
    var s := TrimSpace(path);
    var t := TrimPrefix(s, "./");
    if t != "" && !("/" <= t) {
      if "./" <= s {
        assert s == "./" + t;
        CleanSkipsDotSlash(t);
      }
      assert Clean(s) == Clean(t);
      assert !Rooted(s);
      var n := NormalForm(t);
      NormalFormShape(t);
      if Ups(n) > 0 {
        ClimbingPathStart(n);
      } else if n != [] {
        PlainPathStart(n);
      }
    }
  }

  // ---------- forbidden prefixes ----------

  const BUILTIN_FORBIDDEN: seq<string> := [".github/", ".git/", "secrets/", ".env"]

  predicate MatchesForbiddenPrefix(path: string, prefix: string) {
    if HasSuffix(prefix, "/") then prefix <= path
    else if "." <= prefix then path == prefix || prefix + "." <= path
    else prefix <= path
  }

  datatype ViolationCode = ViolationForbidden | ViolationTraversal | ViolationEmpty
  datatype Violation = Violation(code: ViolationCode, path: string)

  predicate ForbiddenBy(prefixes: seq<string>, path: string) {
    exists i | 0 <= i < |prefixes| :: MatchesForbiddenPrefix(path, prefixes[i])
  }

  function CheckPath(prefixes: seq<string>, raw: string): Option<Violation> {
    var trimmed := TrimSpace(raw);
    if trimmed == "" then Some(Violation(ViolationEmpty, raw))
    else
      match CanonicalizePath(trimmed)
      case Err(_) => Some(Violation(ViolationTraversal, raw))
      case Ok(path) => if ForbiddenBy(prefixes, path) then Some(Violation(ViolationForbidden, raw)) else None
  }

  /** `CheckPath` trims before it canonicalises, which trims again; one trim is enough. */
  lemma CheckPathMeaning(prefixes: seq<string>, raw: string)
    ensures CheckPath(prefixes, raw) == None <==>
            CanonicalizePath(raw).Ok? && !ForbiddenBy(prefixes, CanonicalizePath(raw).value)
    ensures CheckPath(prefixes, raw) == Some(Violation(ViolationForbidden, raw)) <==>
            CanonicalizePath(raw).Ok? && ForbiddenBy(prefixes, CanonicalizePath(raw).value)
    ensures CheckPath(prefixes, raw) == Some(Violation(ViolationEmpty, raw)) <==> CanonicalizePath(raw) == Err(EmptyPath)
  {
    TrimSpaceIdempotent(raw);
  }

  function FirstViolation(prefixes: seq<string>, paths: seq<string>): Option<Violation> {
    if paths == [] then None
    else if CheckPath(prefixes, paths[0]).Some? then CheckPath(prefixes, paths[0])
    else FirstViolation(prefixes, paths[1..])
  }

  /** A request passes exactly when each of its paths does. */
  lemma {:induction false} FirstViolationNone(prefixes: seq<string>, paths: seq<string>)
    ensures FirstViolation(prefixes, paths) == None <==> forall i | 0 <= i < |paths| :: CheckPath(prefixes, paths[i]) == None
  {
    if paths != [] {
      var rest := paths[1..];
      FirstViolationNone(prefixes, rest);
      assert forall i | 0 <= i < |rest| :: rest[i] == paths[i + 1];
      assert forall i | 1 <= i < |paths| :: paths[i] == rest[i - 1];
    }
  }

  /** A refused request is refused for its first offending path. */
  lemma {:induction false} FirstViolationSome(prefixes: seq<string>, paths: seq<string>) returns (i: nat)
    requires FirstViolation(prefixes, paths).Some?
    ensures i < |paths| && CheckPath(prefixes, paths[i]) == FirstViolation(prefixes, paths)
    ensures forall j | 0 <= j < i :: CheckPath(prefixes, paths[j]) == None
  {
    if CheckPath(prefixes, paths[0]).Some? {
      i := 0;
    } else {
      i := FirstViolationSome(prefixes, paths[1..]);
      assert forall j | 1 <= j <= i :: paths[j] == paths[1..][j - 1];
      i := i + 1;
    }
  }

  /** Main result: when the policy lets a request through, every path the runner writes is
      the canonical path the policy checked and matches no forbidden prefix. */
  lemma WrittenPathsAreAllowed(prefixes: seq<string>, paths: seq<string>, i: nat, written: string)
    requires FirstViolation(prefixes, paths) == None
    requires i < |paths| && SafeRelativePath(paths[i]) == Ok(written)
    ensures CanonicalizePath(paths[i]) == Ok(written)
    ensures written != "" && AllPlain(Components(written))
    ensures !ForbiddenBy(prefixes, written)
  {
    FirstViolationNone(prefixes, paths);
    NormalisersAgree(paths[i], written);
    CheckPathMeaning(prefixes, paths[i]);
    assert CheckPath(prefixes, paths[i]) == None;
    var t := TrimPrefix(TrimSpace(paths[i]), "./");
    NormalFormShape(t);
    var n := NormalForm(t);
    if n != [] { JoinStart(n, ""); StackedIsSlashFree(n, Ups(n)); }
    assert written != "";
    CanonicalComponents(paths[i]);
  }

  /** A directory prefix forbids exactly the nodes strictly below that directory. */
  lemma DirectoryPrefixMeaning(node: Node, dir: string)
    requires node != [] && AllPlain(node) && '/' !in dir
    ensures MatchesForbiddenPrefix(Join(node, "/"), dir + "/") <==> |node| >= 2 && node[0] == dir
  {
    JoinStart(node, dir);
    assert (dir + "/")[|dir + "/"| - 1..] == "/";
  }

  /** A dotted prefix forbids that file at the top level and anything whose first component extends it with a dot. */
  lemma DottedPrefixMeaning(node: Node, name: string)
    requires node != [] && AllPlain(node) && '/' !in name && "." <= name
    ensures MatchesForbiddenPrefix(Join(node, "/"), name) <==> node == [name] || name + "." <= node[0]
  {
    JoinStart(node, name);
    JoinStart(node, name + ".");
    assert name[|name| - 1..][0] == name[|name| - 1] != '/';
  }

  /** Any other prefix forbids what it starts, directories and files alike. */
  lemma PlainPrefixMeaning(node: Node, name: string)
    requires node != [] && AllPlain(node) && '/' !in name && !("." <= name)
    ensures MatchesForbiddenPrefix(Join(node, "/"), name) <==> name <= node[0]
  {
    JoinStart(node, name);
    assert name != "" ==> name[|name| - 1..][0] == name[|name| - 1] != '/';
  }

  /** The nodes the built-in list protects. */
  predicate BuiltinProtects(node: Node) {
    node != [] && ((|node| >= 2 && node[0] in {".github", ".git", "secrets"}) || node == [".env"] || ".env." <= node[0])
  }

  lemma ForbiddenByBuiltin(path: string)
    ensures ForbiddenBy(BUILTIN_FORBIDDEN, path) <==>
            MatchesForbiddenPrefix(path, BUILTIN_FORBIDDEN[0]) || MatchesForbiddenPrefix(path, BUILTIN_FORBIDDEN[1]) ||
            MatchesForbiddenPrefix(path, BUILTIN_FORBIDDEN[2]) || MatchesForbiddenPrefix(path, BUILTIN_FORBIDDEN[3])
  {
  }

  lemma BuiltinMeaning(node: Node)
    requires node != [] && AllPlain(node)
    ensures ForbiddenBy(BUILTIN_FORBIDDEN, Join(node, "/")) <==> BuiltinProtects(node)
  {
    var path := Join(node, "/");
    DirectoryPrefixMeaning(node, ".github");
    DirectoryPrefixMeaning(node, ".git");
    DirectoryPrefixMeaning(node, "secrets");
    DottedPrefixMeaning(node, ".env");
    assert ".github" + "/" == BUILTIN_FORBIDDEN[0] && ".git" + "/" == BUILTIN_FORBIDDEN[1];
    assert "secrets" + "/" == BUILTIN_FORBIDDEN[2] && ".env" == BUILTIN_FORBIDDEN[3];
    assert ".env" + "." == ".env.";
    ForbiddenByBuiltin(path);
  }

  // ---------- configuration ----------

  function NormalizePrefix(s: string): string {
    TrimPrefix(TrimPrefix(TrimSpace(s), "./"), "/")
  }

  function KeepNonEmpty(items: seq<string>): seq<string> {
    if items == [] then []
    else KeepNonEmpty(items[..|items| - 1]) + if items[|items| - 1] == "" then [] else [items[|items| - 1]]
  }

  function NormalizeAll(items: seq<string>): seq<string> {
    seq(|items|, i requires 0 <= i < |items| => NormalizePrefix(items[i]))
  }

  function ConfiguredPrefixes(csv: string): seq<string> {
    KeepNonEmpty(NormalizeAll(Split(csv, ',')))
  }

  /** First occurrences, in order. */
  function Distinct(xs: seq<string>): seq<string> {
    if xs == [] then []
    else
      var init := xs[..|xs| - 1];
      Distinct(init) + if xs[|xs| - 1] in init then [] else [xs[|xs| - 1]]
  }

  predicate NoRepeats(xs: seq<string>) {
    forall i, j | 0 <= i < j < |xs| :: xs[i] != xs[j]
  }

  lemma {:induction false} DistinctMembers(xs: seq<string>)
    ensures NoRepeats(Distinct(xs))
    ensures forall x :: x in Distinct(xs) <==> x in xs
  {
    if xs != [] {
      DistinctMembers(xs[..|xs| - 1]);
      assert xs == xs[..|xs| - 1] + [xs[|xs| - 1]];
    }
  }

  /** Configuration extends a repeat-free base list; it never removes or reorders it. */
  lemma {:induction false} DistinctKeepsBase(base: seq<string>, extra: seq<string>)
    requires NoRepeats(base)
    ensures base <= Distinct(base + extra)
  {
    if extra != [] {
      DistinctKeepsBase(base, extra[..|extra| - 1]);
      assert (base + extra)[..|base + extra| - 1] == base + extra[..|extra| - 1];
    } else {
      assert base + extra == base;
      DistinctOfNoRepeats(base);
    }
  }

  lemma {:induction false} DistinctOfNoRepeats(xs: seq<string>)
    requires NoRepeats(xs)
    ensures Distinct(xs) == xs
  {
    if xs != [] {
      LastIsNew(xs);
      DistinctOfNoRepeats(xs[..|xs| - 1]);
    }
  }

  lemma LastIsNew(xs: seq<string>)
    requires NoRepeats(xs) && xs != []
    ensures var init, last := xs[..|xs| - 1], xs[|xs| - 1]; NoRepeats(init) && last !in init && xs == init + [last]
  {
    var init, last := xs[..|xs| - 1], xs[|xs| - 1];
    forall x | x in init ensures x != last {
      var i :| 0 <= i < |init| && init[i] == x;
      assert xs[i] == x;
    }
  }

  lemma BuiltinHasNoRepeats()
    ensures NoRepeats(BUILTIN_FORBIDDEN)
  {
    assert |BUILTIN_FORBIDDEN[0]| == |BUILTIN_FORBIDDEN[2]| == 8;
    assert |BUILTIN_FORBIDDEN[1]| == 5 && |BUILTIN_FORBIDDEN[3]| == 4;
    assert BUILTIN_FORBIDDEN[0][0] != BUILTIN_FORBIDDEN[2][0];
  }

  method ParsePrefixesCSV(csv: string) returns (out: seq<string>)
    ensures out == ConfiguredPrefixes(csv)
    ensures "" !in out
  {
    var items := Split(csv, ',');
    out := [];
    for i := 0 to |items|
      invariant out == KeepNonEmpty(NormalizeAll(items)[..i])
      invariant "" !in out
    {
      var item := NormalizePrefix(items[i]);
      assert NormalizeAll(items)[..i + 1][..i] == NormalizeAll(items)[..i];
      if item != "" {
        out := out + [item];
      }
    }
    assert NormalizeAll(items)[..|items|] == NormalizeAll(items);
  }

  method MergeUniquePrefixes(base: seq<string>, extra: seq<string>) returns (out: seq<string>)
    ensures out == Distinct(base + extra)
    ensures NoRepeats(out) && forall x :: x in out <==> x in base || x in extra
    ensures NoRepeats(base) ==> base <= out
  {
    var all := base + extra;
    var seen: set<string> := {};
    out := [];
    for i := 0 to |all|
      invariant out == Distinct(all[..i])
      invariant forall x :: x in seen <==> x in all[..i]
    {
      var prefix := all[i];
      assert all[..i + 1][..i] == all[..i];
      assert all[..i + 1] == all[..i] + [prefix];
      if prefix in seen {
        continue;
      }
      seen := seen + {prefix};
      out := out + [prefix];
    }
    assert all[..|all|] == all;
    DistinctMembers(all);
    if NoRepeats(base) { DistinctKeepsBase(base, extra); }
  }

  function AllowList(csv: string): set<string> {
    set item <- Split(csv, ',') | TrimSpace(item) != "" :: TrimSpace(item)
  }

  method ParseCSV(csv: string) returns (m: set<string>)
    ensures m == AllowList(csv)
  {
    var items := Split(csv, ',');
    m := {};
    for i := 0 to |items|
      invariant m == set item <- items[..i] | TrimSpace(item) != "" :: TrimSpace(item)
    {
      assert items[..i + 1] == items[..i] + [items[i]];
      var item := TrimSpace(items[i]);
      if item != "" {
        m := m + {item};
      }
    }
    assert items[..|items|] == items;
  }

  /** Main result about an allowlist: a comma-separated list allows exactly the names it lists, with or
      without white space around them. */
  lemma AllowListMeaning(items: seq<string>, name: string)
    requires items != [] && forall item <- items :: ',' !in item
    ensures name in AllowList(Join(items, ",")) <==>
            name != "" && Tight(name) && exists i, left, right :: 0 <= i < |items| && Pads(items[i], name, left, right)
  {
    SplitJoin(items, ',');
    assert Split(Join(items, ","), ',') == items;
    if name in AllowList(Join(items, ",")) {
      var item :| item in items && TrimSpace(item) == name;
      var i :| 0 <= i < |items| && items[i] == item;
      var left, right := TrimSpacePads(item);
      assert Pads(items[i], name, left, right);
    }
    if name != "" && Tight(name) && exists i, left, right :: 0 <= i < |items| && Pads(items[i], name, left, right) {
      var i, left, right :| 0 <= i < |items| && Pads(items[i], name, left, right);
      TrimPadded(items[i], name, left, right);
      assert items[i] in items;
    }
  }

  /** What a configured item stands for: white space around it and one leading `./` and `/` are dropped. */
  lemma NormalizePrefixMeaning(item: string, lead: string, name: string, left: string, right: string)
    requires Tight(lead + name) && Pads(item, lead + name, left, right)
    requires lead in {"", "./", "/", ".//"} && !("/" <= name) && !("./" <= name)
    ensures NormalizePrefix(item) == name
  {
    TrimPadded(item, lead + name, left, right);
    var t := lead + name;
    assert |lead| == 0 ==> t == name;
    assert lead == "/" ==> t[0] == '/';
    assert lead == "./" ==> t[..2] == "./" && t[2..] == name;
    assert lead == ".//" ==> t[..2] == "./" && t[2..] == "/" + name;
    assert ("/" + name)[1..] == name;
  }

  /** The items that are not empty, from the front. */
  function NonEmptyOnes(names: seq<string>): seq<string> {
    if names == [] then [] else (if names[0] == "" then [] else [names[0]]) + NonEmptyOnes(names[1..])
  }

  lemma {:induction false} KeepNonEmptyFromFront(names: seq<string>)
    ensures KeepNonEmpty(names) == NonEmptyOnes(names)
  {
    if names != [] {
      var n := |names| - 1;
      KeepNonEmptyFromFront(names[..n]);
      NonEmptyOnesAppend(names[..n], names[n]);
      assert names == names[..n] + [names[n]];
    }
  }

  lemma {:induction false} NonEmptyOnesAppend(names: seq<string>, last: string)
    ensures NonEmptyOnes(names + [last]) == NonEmptyOnes(names) + if last == "" then [] else [last]
  {
    if names == [] {
      assert names + [last] == [last] && [last][1..] == [];
    } else {
      assert (names + [last])[1..] == names[1..] + [last];
      NonEmptyOnesAppend(names[1..], last);
    }
  }

  /** How an item of a configuration list is written: a name behind a lead, white space around. */
  datatype Written = Written(left: string, lead: string, name: string, right: string)

  function ItemText(w: Written): string { w.left + (w.lead + w.name) + w.right }

  predicate WellWritten(w: Written) {
    && AllSpace(w.left) && AllSpace(w.right) && Tight(w.lead + w.name) && ',' !in ItemText(w)
    && w.lead in {"", "./", "/", ".//"} && !("/" <= w.name) && !("./" <= w.name)
  }

  function ItemTexts(ws: seq<Written>): (texts: seq<string>)
    ensures |texts| == |ws|
  {
    seq(|ws|, i requires 0 <= i < |ws| => ItemText(ws[i]))
  }

  function NamesOf(ws: seq<Written>): (names: seq<string>)
    ensures |names| == |ws|
  {
    seq(|ws|, i requires 0 <= i < |ws| => ws[i].name)
  }

  /** Main result about a configured prefix list: it stands for the names written in it, in order, the empty
      ones left out. */
  lemma ConfiguredPrefixesMeaning(ws: seq<Written>)
    requires ws != [] && forall i | 0 <= i < |ws| :: WellWritten(ws[i])
    ensures ConfiguredPrefixes(Join(ItemTexts(ws), ",")) == NonEmptyOnes(NamesOf(ws))
  {
    var items := ItemTexts(ws);
    forall item <- items ensures ',' !in item {
      var i :| 0 <= i < |items| && items[i] == item;
      assert WellWritten(ws[i]);
    }
    SplitJoin(items, ',');
    forall i | 0 <= i < |ws| ensures NormalizePrefix(items[i]) == ws[i].name {
      NormalizePrefixMeaning(items[i], ws[i].lead, ws[i].name, ws[i].left, ws[i].right);
    }
    assert NormalizeAll(items) == NamesOf(ws);
    KeepNonEmptyFromFront(NamesOf(ws));
  }

  predicate StartsWithAny(prefixes: seq<string>, path: string) {
    exists i | 0 <= i < |prefixes| :: prefixes[i] <= path
  }

  predicate PathNeedsApproval(prefixes: seq<string>, raw: string) {
    CanonicalizePath(raw).Err? || StartsWithAny(prefixes, CanonicalizePath(raw).value)
  }

  class Policy {
    var allowedRepos: set<string>
    var allowedTools: set<string>
    var forbiddenPathPrefixes: seq<string>
    var approvalPathPrefixes: seq<string>

    /** The built-in prefixes head the forbidden list, which has no repeats. */
    ghost predicate Valid()
      reads this
    {
      BUILTIN_FORBIDDEN <= forbiddenPathPrefixes && NoRepeats(forbiddenPathPrefixes)
    }

    constructor (repoCSV: string, toolCSV: string)
      ensures Valid()
      ensures allowedRepos == AllowList(repoCSV) && allowedTools == AllowList(toolCSV)
      ensures forbiddenPathPrefixes == BUILTIN_FORBIDDEN && approvalPathPrefixes == []
    {
      var repos := ParseCSV(repoCSV);
      var tools := ParseCSV(toolCSV);
      allowedRepos, allowedTools := repos, tools;
      forbiddenPathPrefixes, approvalPathPrefixes := BUILTIN_FORBIDDEN, [];
      BuiltinHasNoRepeats();
    }

    method SetPathPolicy(forbiddenCSV: string, approvalCSV: string)
      modifies this`forbiddenPathPrefixes, this`approvalPathPrefixes
      ensures Valid()
      ensures forbiddenPathPrefixes == Distinct(BUILTIN_FORBIDDEN + ConfiguredPrefixes(forbiddenCSV))
      ensures approvalPathPrefixes == ConfiguredPrefixes(approvalCSV)
    {
      var extra := ParsePrefixesCSV(forbiddenCSV);
      BuiltinHasNoRepeats();
      forbiddenPathPrefixes := MergeUniquePrefixes(BUILTIN_FORBIDDEN, extra);
      approvalPathPrefixes := ParsePrefixesCSV(approvalCSV);
    }

    predicate CheckTool(toolName: string)
      reads this
    {
      toolName in allowedTools
    }

    method MatchesForbidden(path: string) returns (found: bool)
      ensures found == ForbiddenBy(forbiddenPathPrefixes, path)
    {
      for j := 0 to |forbiddenPathPrefixes|
        invariant forall i | 0 <= i < j :: !MatchesForbiddenPrefix(path, forbiddenPathPrefixes[i])
      {
        if MatchesForbiddenPrefix(path, forbiddenPathPrefixes[j]) {
          return true;
        }
      }
      return false;
    }

    method CheckPaths(paths: seq<string>) returns (v: Option<Violation>)
      ensures v == FirstViolation(forbiddenPathPrefixes, paths)
    {
      for k := 0 to |paths|
        invariant FirstViolation(forbiddenPathPrefixes, paths) == FirstViolation(forbiddenPathPrefixes, paths[k..])
      {
        var raw := paths[k];
        assert paths[k..][0] == raw && paths[k..][1..] == paths[k + 1..];
        var trimmed := TrimSpace(raw);
        if trimmed == "" {
          return Some(Violation(ViolationEmpty, raw));
        }
        var canonical := CanonicalizePath(trimmed);
        if canonical.Err? {
          return Some(Violation(ViolationTraversal, raw));
        }
        var forbidden := MatchesForbidden(canonical.value);
        if forbidden {
          return Some(Violation(ViolationForbidden, raw));
        }
      }
      return None;
    }

    method HasApprovalPrefix(path: string) returns (found: bool)
      ensures found == StartsWithAny(approvalPathPrefixes, path)
    {
      for j := 0 to |approvalPathPrefixes|
        invariant forall i | 0 <= i < j :: !(approvalPathPrefixes[i] <= path)
      {
        if approvalPathPrefixes[j] <= path {
          return true;
        }
      }
      return false;
    }

    /** Approval is needed as soon as one path cannot be canonicalised or starts with an approval prefix. */
    method RequiresApproval(paths: seq<string>) returns (required: bool)
      ensures required <==> exists k | 0 <= k < |paths| :: PathNeedsApproval(approvalPathPrefixes, paths[k])
      ensures required <==>
              || (exists k | 0 <= k < |paths| :: CanonicalizePath(paths[k]).Err?)
              || exists k, i | 0 <= k < |paths| && 0 <= i < |approvalPathPrefixes| ::
                   CanonicalizePath(paths[k]).Ok? && approvalPathPrefixes[i] <= CanonicalizePath(paths[k]).value
    {
      for k := 0 to |paths|
        invariant forall m | 0 <= m < k :: !PathNeedsApproval(approvalPathPrefixes, paths[m])
      {
        var canonical := CanonicalizePath(paths[k]);
        if canonical.Err? {
          return true;
        }
        var found := HasApprovalPrefix(canonical.value);
        if found {
          return true;
        }
      }
      return false;
    }
  }

  lemma ForbiddenByMore(base: seq<string>, prefixes: seq<string>, path: string)
    requires base <= prefixes && ForbiddenBy(base, path)
    ensures ForbiddenBy(prefixes, path)
  {
    var i :| 0 <= i < |base| && MatchesForbiddenPrefix(path, base[i]);
    assert prefixes[i] == base[i];
  }

  lemma BaseAlwaysEnforced(base: seq<string>, extra: seq<string>, raw: string)
    requires NoRepeats(base)
    requires CanonicalizePath(raw).Ok? && ForbiddenBy(base, CanonicalizePath(raw).value)
    ensures CheckPath(Distinct(base + extra), raw) == Some(Violation(ViolationForbidden, raw))
  {
    DistinctKeepsBase(base, extra);
    ForbiddenByMore(base, Distinct(base + extra), CanonicalizePath(raw).value);
    CheckPathMeaning(Distinct(base + extra), raw);
  }

  lemma BuiltinOnCanonical(raw: string)
    requires CanonicalizePath(raw).Ok? && CanonicalizePath(raw).value != ""
    ensures var path := CanonicalizePath(raw).value; ForbiddenBy(BUILTIN_FORBIDDEN, path) <==> BuiltinProtects(Components(path))
  {
    CanonicalComponents(raw);
    JoinSplit(CanonicalizePath(raw).value, '/');
    BuiltinMeaning(Components(CanonicalizePath(raw).value));
  }

  lemma EmptyIsNotForbidden()
    ensures !ForbiddenBy(BUILTIN_FORBIDDEN, "")
  {
  }

  /** No configuration weakens the built-in protection: whatever the environment supplies,
      a path naming a protected node is refused as forbidden. */
  lemma BuiltinsAlwaysEnforced(forbiddenCSV: string, raw: string)
    requires CanonicalizePath(raw).Ok? && CanonicalizePath(raw).value != ""
    requires BuiltinProtects(Components(CanonicalizePath(raw).value))
    ensures CheckPath(Distinct(BUILTIN_FORBIDDEN + ConfiguredPrefixes(forbiddenCSV)), raw)
            == Some(Violation(ViolationForbidden, raw))
  {
    BuiltinOnCanonical(raw);
    BuiltinHasNoRepeats();
    BaseAlwaysEnforced(BUILTIN_FORBIDDEN, ConfiguredPrefixes(forbiddenCSV), raw);
  }

  /** With no extra configuration the policy refuses exactly the unwalkable paths and the protected nodes. */
  lemma DefaultPolicyIsExact(raw: string)
    ensures CheckPath(BUILTIN_FORBIDDEN, raw) == None <==>
            CanonicalizePath(raw).Ok?
            && (CanonicalizePath(raw).value != "" ==> !BuiltinProtects(Components(CanonicalizePath(raw).value)))
  {
    CheckPathMeaning(BUILTIN_FORBIDDEN, raw);
    if CanonicalizePath(raw).Ok? {
      if CanonicalizePath(raw).value == "" { EmptyIsNotForbidden(); } else { BuiltinOnCanonical(raw); }
    }
  }
}

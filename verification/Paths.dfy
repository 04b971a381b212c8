/** Unix path normalisation. `filepath.Clean` is modelled as a stack of components;
    its meaning is a plain walk through directories, one component at a time. */
module Paths {
  import opened Text

  type Node = seq<string>

  function Last(xs: seq<string>): string
    requires xs != []
  {
    xs[|xs| - 1]
  }

  // ---------- normalisation ----------

  function PushComponent(rooted: bool, stack: seq<string>, c: string): seq<string> {
    if c == "" || c == "." then stack
    else if c != ".." then stack + [c]
    else if stack != [] && Last(stack) != ".." then stack[..|stack| - 1]
    else if rooted then stack
    else stack + [".."]
  }

  function Normalize(rooted: bool, stack: seq<string>, comps: seq<string>): seq<string>
    decreases comps
  {
    if comps == [] then stack else Normalize(rooted, PushComponent(rooted, stack, comps[0]), comps[1..])
  }

  predicate Rooted(s: string) { "/" <= s }

  function Components(s: string): seq<string> { Split(s, '/') }

  /** The stack `Clean` arrives at. */
  function NormalForm(s: string): seq<string> {
    Normalize(Rooted(s), [], Components(s))
  }

  function Render(rooted: bool, comps: seq<string>): string {
    if rooted then "/" + Join(comps, "/") else if comps == [] then "." else Join(comps, "/")
  }

  function Clean(s: string): string {
    Render(Rooted(s), NormalForm(s))
  }

  // ---------- walking ----------

  /** Where a walk has got to; `Above` once it has left the directory tree upwards. */
  datatype Place = Above | At(node: Node)

  function Move(p: Place, c: string): Place {
    if p.Above? || c == "" || c == "." then p
    else if c != ".." then At(p.node + [c])
    else if p.node == [] then Above
    else At(p.node[..|p.node| - 1])
  }

  function Walk(p: Place, comps: seq<string>): Place
    decreases comps
  {
    if comps == [] then p else Walk(Move(p, comps[0]), comps[1..])
  }

  /** The same walk from the root directory, whose parent is itself. */
  function WalkFromRoot(node: Node, comps: seq<string>): Node
    decreases comps
  {
    if comps == [] then node
    else
      var next := Move(At(node), comps[0]);
      WalkFromRoot(if next.Above? then [] else next.node, comps[1..])
  }

  predicate Plain(c: string) {
    c != "" && c != "." && c != ".." && '/' !in c
  }

  predicate AllPlain(node: Node) {
    forall i | 0 <= i < |node| :: Plain(node[i])
  }

  predicate SlashFree(comps: seq<string>) {
    forall i | 0 <= i < |comps| :: '/' !in comps[i]
  }

  lemma ComponentsAreSlashFree(s: string)
    ensures SlashFree(Components(s))
  {
    forall i | 0 <= i < |Components(s)| ensures '/' !in Components(s)[i] {
      SplitPartsLackSeparator(s, '/', i);
    }
  }

  // ---------- shape of the stack ----------

  /** `ups` leading ".." components followed by plain ones. */
  predicate Stacked(stack: seq<string>, ups: nat) {
    && ups <= |stack|
    && (forall i | 0 <= i < ups :: stack[i] == "..")
    && (forall i | ups <= i < |stack| :: Plain(stack[i]))
  }

  function Ups(stack: seq<string>): (n: nat)
    ensures n <= |stack|
  {
    if stack != [] && stack[0] == ".." then 1 + Ups(stack[1..]) else 0
  }

  lemma {:induction false} UpsOfStacked(stack: seq<string>, ups: nat)
    requires Stacked(stack, ups)
    ensures Ups(stack) == ups
  {
    if ups > 0 {
      UpsOfStacked(stack[1..], ups - 1);
    }
  }

  lemma PushKeepsStacked(rooted: bool, stack: seq<string>, ups: nat, c: string) returns (ups': nat)
    requires Stacked(stack, ups) && '/' !in c && (rooted ==> ups == 0)
    ensures Stacked(PushComponent(rooted, stack, c), ups')
    ensures rooted ==> ups' == 0
    ensures ups <= ups'
  {
    ups' := if c == ".." && |stack| == ups && !rooted then ups + 1 else ups;
  }

  lemma {:induction false} NormalizeStacked(rooted: bool, stack: seq<string>, ups: nat, comps: seq<string>) returns (ups': nat)
    requires Stacked(stack, ups) && SlashFree(comps) && (rooted ==> ups == 0)
    ensures Stacked(Normalize(rooted, stack, comps), ups')
    ensures rooted ==> ups' == 0
    ensures ups <= ups'
    decreases comps
  {
    if comps == [] {
      ups' := ups;
    } else {
      ups' := PushKeepsStacked(rooted, stack, ups, comps[0]);
      ups' := NormalizeStacked(rooted, PushComponent(rooted, stack, comps[0]), ups', comps[1..]);
    }
  }

  /** Normal forms: some ".." (none when rooted), then plain components. */
  lemma NormalFormShape(s: string)
    ensures var n := NormalForm(s); Stacked(n, Ups(n)) && (Rooted(s) ==> Ups(n) == 0)
  {
    ComponentsAreSlashFree(s);
    var ups := NormalizeStacked(Rooted(s), [], 0, Components(s));
    UpsOfStacked(NormalForm(s), ups);
  }

  // ---------- meaning of the stack ----------

  /** What a stack denotes when it is walked from directory `d`: the leading ".." climb out of `d`. */
  function Resolve(d: Node, stack: seq<string>): Place {
    if Ups(stack) <= |d| then At(d[..|d| - Ups(stack)] + stack[Ups(stack)..]) else Above
  }

  lemma ResolveStacked(d: Node, stack: seq<string>, ups: nat)
    requires Stacked(stack, ups)
    ensures Resolve(d, stack) == if ups <= |d| then At(d[..|d| - ups] + stack[ups..]) else Above
  {
    UpsOfStacked(stack, ups);
  }

  /** One more ".." on a stack that already only climbs. */
  lemma ResolveClimb(d: Node, stack: seq<string>, ups: nat)
    requires Stacked(stack, ups) && |stack| == ups
    ensures Resolve(d, stack + [".."]) == Move(Resolve(d, stack), "..")
  {
    ResolveStacked(d, stack, ups);
    ResolveStacked(d, stack + [".."], ups + 1);
    if ups + 1 <= |d| {
      var node := d[..|d| - ups];
      assert node + stack[ups..] == node;
      assert d[..|d| - (ups + 1)] + (stack + [".."])[ups + 1..] == node[..|node| - 1];
    }
  }

  /** A ".." that cancels the last plain component. */
  lemma ResolvePop(d: Node, stack: seq<string>, ups: nat)
    requires Stacked(stack, ups) && ups < |stack|
    ensures Resolve(d, stack[..|stack| - 1]) == Move(Resolve(d, stack), "..")
  {
    var next := stack[..|stack| - 1];
    ResolveStacked(d, stack, ups);
    ResolveStacked(d, next, ups);
    if ups <= |d| {
      var node := d[..|d| - ups] + stack[ups..];
      assert node[..|node| - 1] == d[..|d| - ups] + next[ups..];
    }
  }

  lemma ResolveDescend(d: Node, stack: seq<string>, ups: nat, c: string)
    requires Stacked(stack, ups) && Plain(c)
    ensures Resolve(d, stack + [c]) == Move(Resolve(d, stack), c)
  {
    ResolveStacked(d, stack, ups);
    ResolveStacked(d, stack + [c], ups);
    if ups <= |d| {
      assert (stack + [c])[ups..] == stack[ups..] + [c];
      assert d[..|d| - ups] + (stack[ups..] + [c]) == (d[..|d| - ups] + stack[ups..]) + [c];
    }
  }

  lemma ResolvePush(d: Node, stack: seq<string>, ups: nat, c: string)
    requires Stacked(stack, ups) && '/' !in c
    ensures Resolve(d, PushComponent(false, stack, c)) == Move(Resolve(d, stack), c)
  {
    if c == "" || c == "." {
    } else if c != ".." {
      ResolveDescend(d, stack, ups, c);
    } else if ups < |stack| {
      ResolvePop(d, stack, ups);
    } else {
      ResolveClimb(d, stack, ups);
    }
  }

  /** Normalising is walking, whatever the starting directory. */
  lemma {:induction false} NormalizeIsWalk(d: Node, stack: seq<string>, ups: nat, comps: seq<string>)
    requires Stacked(stack, ups) && SlashFree(comps)
    ensures Resolve(d, Normalize(false, stack, comps)) == Walk(Resolve(d, stack), comps)
    decreases comps
  {
    if comps != [] {
      ResolvePush(d, stack, ups, comps[0]);
      var ups' := PushKeepsStacked(false, stack, ups, comps[0]);
      NormalizeIsWalk(d, PushComponent(false, stack, comps[0]), ups', comps[1..]);
    }
  }

  /** A relative path's normal form, walked from any directory, leads where the raw path leads. */
  lemma NormalFormMeaning(s: string, d: Node)
    requires !Rooted(s)
    ensures Walk(At(d), Components(s)) == Resolve(d, NormalForm(s))
  {
    ComponentsAreSlashFree(s);
    assert Resolve(d, []) == At(d) by { assert d[..|d|] + [] == d; }
    NormalizeIsWalk(d, [], 0, Components(s));
  }

  lemma {:induction false} NormalizeRootedIsWalk(stack: seq<string>, comps: seq<string>)
    requires Stacked(stack, 0) && SlashFree(comps)
    ensures Normalize(true, stack, comps) == WalkFromRoot(stack, comps)
    decreases comps
  {
    if comps != [] {
      var next := PushComponent(true, stack, comps[0]);
      var ups' := PushKeepsStacked(true, stack, 0, comps[0]);
      NormalizeRootedIsWalk(next, comps[1..]);
    }
  }

  /** An absolute path's normal form is the node reached from the root, clamped there. */
  lemma RootedNormalFormMeaning(s: string)
    requires Rooted(s)
    ensures NormalForm(s) == WalkFromRoot([], Components(s))
  {
    ComponentsAreSlashFree(s);
    NormalizeRootedIsWalk([], Components(s));
  }

  // ---------- Clean is a normal form ----------

  lemma {:induction false} NormalizeStackedInput(rooted: bool, stack: seq<string>, comps: seq<string>, ups: nat)
    requires Stacked(stack + comps, ups) && (rooted ==> ups == 0)
    ensures Normalize(rooted, stack, comps) == stack + comps
    decreases comps
  {
    if comps != [] {
      var c := comps[0];
      assert (stack + comps)[|stack|] == c;
      if stack != [] { assert Last(stack) == (stack + comps)[|stack| - 1]; }
      assert PushComponent(rooted, stack, c) == stack + [c];
      assert stack + [c] + comps[1..] == stack + comps;
      NormalizeStackedInput(rooted, stack + [c], comps[1..], ups);
    } else {
      assert stack + comps == stack;
    }
  }

  lemma {:induction false} JoinHead(comps: seq<string>)
    requires comps != [] && comps[0] != ""
    ensures comps[0] <= Join(comps, "/")
    ensures Join(comps, "/") != "" && Join(comps, "/")[0] == comps[0][0]
  {
  }

  lemma StackedIsSlashFree(stack: seq<string>, ups: nat)
    requires Stacked(stack, ups)
    ensures SlashFree(stack) && forall i | 0 <= i < |stack| :: stack[i] != ""
  {
  }

  lemma ComponentsOfJoin(stack: seq<string>, ups: nat)
    requires Stacked(stack, ups) && stack != []
    ensures Components(Join(stack, "/")) == stack && !Rooted(Join(stack, "/")) && Join(stack, "/") != ""
    ensures Components("/" + Join(stack, "/")) == [""] + stack
  {
    var path := Join(stack, "/");
    StackedIsSlashFree(stack, ups);
    SplitJoin(stack, '/');
    JoinHead(stack);
    assert path[0] == stack[0][0] != '/';
    SplitAtSeparator("", '/', path);
    assert "" + ['/'] + path == "/" + path;
  }

  /** Reading a rendered stack back. */
  lemma NormalFormOfRender(rooted: bool, stack: seq<string>, ups: nat)
    requires Stacked(stack, ups) && (rooted ==> ups == 0)
    ensures Rooted(Render(rooted, stack)) == rooted
    ensures NormalForm(Render(rooted, stack)) == stack
  {
    if stack == [] {
      SplitWithoutSeparator(".", '/');
      assert Components("/") == [""] + Split("", '/');
      NormalizeSkips(rooted, [], [""]);
      NormalizeSkips(rooted, [], []);
    } else {
      ComponentsOfJoin(stack, ups);
      NormalizeStackedInput(rooted, [], stack, ups);
      assert [] + stack == stack;
      NormalizeSkips(rooted, [], stack);
    }
  }

  lemma NormalizeSkips(rooted: bool, stack: seq<string>, comps: seq<string>)
    ensures Normalize(rooted, stack, [""] + comps) == Normalize(rooted, stack, comps)
    ensures Normalize(rooted, stack, ["."] + comps) == Normalize(rooted, stack, comps)
  {
    assert ([""] + comps)[1..] == comps && (["."] + comps)[1..] == comps;
  }

  lemma CleanIdempotent(s: string)
    ensures Clean(Clean(s)) == Clean(s)
  {
    NormalFormShape(s);
    NormalFormOfRender(Rooted(s), NormalForm(s), Ups(NormalForm(s)));
  }

  /** Cleaning changes neither where a relative path leads nor whether it is absolute. */
  lemma CleanPreservesMeaning(s: string, d: Node)
    ensures Rooted(Clean(s)) == Rooted(s)
    ensures !Rooted(s) ==> Walk(At(d), Components(Clean(s))) == Walk(At(d), Components(s))
    ensures Rooted(s) ==> WalkFromRoot([], Components(Clean(s))) == WalkFromRoot([], Components(s))
  {
    NormalFormShape(s);
    NormalFormOfRender(Rooted(s), NormalForm(s), Ups(NormalForm(s)));
    if Rooted(s) {
      RootedNormalFormMeaning(s);
      RootedNormalFormMeaning(Clean(s));
    } else {
      NormalFormMeaning(s, d);
      NormalFormMeaning(Clean(s), d);
    }
  }

  lemma SameUps(m: seq<string>, n: seq<string>, ups: nat)
    requires Stacked(m, ups) && Stacked(n, ups) && m[ups..] == n[ups..]
    ensures m == n
  {
    assert m[..ups] == n[..ups];
    assert m == m[..ups] + m[ups..] && n == n[..ups] + n[ups..];
  }

  lemma SameWalksSameNormalForm(s: string, t: string)
    requires !Rooted(s) && !Rooted(t)
    requires forall d: Node :: Walk(At(d), Components(s)) == Walk(At(d), Components(t))
    ensures NormalForm(s) == NormalForm(t)
  {
    var m, n := NormalForm(s), NormalForm(t);
    NormalFormShape(s);
    NormalFormShape(t);
    var low := if Ups(m) <= Ups(n) then Ups(m) else Ups(n);
    var d := seq(low, i => "");
    assert Walk(At(d), Components(s)) == Walk(At(d), Components(t));
    NormalFormMeaning(s, d);
    NormalFormMeaning(t, d);
    assert Resolve(d, m) == Resolve(d, n);
    assert Ups(m) == Ups(n) == low;
    assert d[..0] + m[low..] == m[low..] && d[..0] + n[low..] == n[low..];
    assert m[low..] == n[low..];
    SameUps(m, n, low);
  }

  /** Two relative paths clean to the same text exactly when they lead to the same place from
      every directory. */
  lemma CleanDecidesMeaning(s: string, t: string)
    requires !Rooted(s) && !Rooted(t)
    ensures Clean(s) == Clean(t) <==> forall d: Node :: Walk(At(d), Components(s)) == Walk(At(d), Components(t))
  {
    if Clean(s) == Clean(t) {
      forall d: Node ensures Walk(At(d), Components(s)) == Walk(At(d), Components(t)) {
        CleanPreservesMeaning(s, d);
        CleanPreservesMeaning(t, d);
      }
    }
    if forall d: Node :: Walk(At(d), Components(s)) == Walk(At(d), Components(t)) {
      SameWalksSameNormalForm(s, t);
    }
  }
}

/** The idempotency key derived from an issue request: canonical payload, JSON text, hash. */
module IssueKey {
  import opened Text
  import opened Wrappers
  import opened Json
  import opened Hash

  // ---------- sorting ----------

  /** The order of `sort.Strings`. */
  predicate Lex(a: string, b: string) {
    a == "" || (b != "" && (a[0] < b[0] || (a[0] == b[0] && Lex(a[1..], b[1..]))))
  }

  /** A text comes first when it starts the other, or is smaller at the first place where they differ. */
  lemma {:induction false} LexMeaning(a: string, b: string)
    ensures Lex(a, b) <==> a <= b || exists i | 0 <= i < |a| && i < |b| :: a[..i] == b[..i] && a[i] < b[i]
  {
    if a != "" && b != "" && a[0] == b[0] {
      var a', b' := a[1..], b[1..];
      LexMeaning(a', b');
      assert a <= b <==> a' <= b';
      if i :| 0 <= i < |a'| && i < |b'| && a'[..i] == b'[..i] && a'[i] < b'[i] {
        assert a[..i + 1] == [a[0]] + a'[..i] && b[..i + 1] == [b[0]] + b'[..i] && a[i + 1] < b[i + 1];
      }
      if i :| 0 <= i < |a| && i < |b| && a[..i] == b[..i] && a[i] < b[i] {
        assert i > 0 && a'[..i - 1] == a[..i][1..] && b'[..i - 1] == b[..i][1..] && a'[i - 1] < b'[i - 1];
      }
    } else if a != "" && b != "" {
      assert a[..0] == b[..0];
      assert forall i | 0 < i <= |a| && i <= |b| :: a[..i][0] == a[0] && b[..i][0] == b[0];
    }
  }

  lemma {:induction false} LexTotal(a: string, b: string)
    ensures Lex(a, b) || Lex(b, a)
  {
    if a != "" && b != "" { LexTotal(a[1..], b[1..]); }
  }

  lemma {:induction false} LexAntisymmetric(a: string, b: string)
    requires Lex(a, b) && Lex(b, a)
    ensures a == b
  {
    if a != "" && b != "" {
      LexAntisymmetric(a[1..], b[1..]);
      assert a == [a[0]] + a[1..] && b == [b[0]] + b[1..];
    }
  }

  lemma {:induction false} LexTransitive(a: string, b: string, c: string)
    requires Lex(a, b) && Lex(b, c)
    ensures Lex(a, c)
  {
    if a != "" && a[0] == b[0] == c[0] { LexTransitive(a[1..], b[1..], c[1..]); }
  }

  predicate Sorted(xs: seq<string>) {
    forall i, j | 0 <= i < j < |xs| :: Lex(xs[i], xs[j])
  }

  function Insert(x: string, xs: seq<string>): seq<string> {
    if xs == [] then [x] else if Lex(x, xs[0]) then [x] + xs else [xs[0]] + Insert(x, xs[1..])
  }

  function SortStrings(xs: seq<string>): seq<string> {
    if xs == [] then [] else Insert(xs[0], SortStrings(xs[1..]))
  }

  lemma {:induction false} InsertContents(x: string, xs: seq<string>)
    ensures multiset(Insert(x, xs)) == multiset{x} + multiset(xs)
  {
    if xs != [] && !Lex(x, xs[0]) {
      InsertContents(x, xs[1..]);
      assert xs == [xs[0]] + xs[1..];
    }
  }

  lemma {:induction false} InsertSorted(x: string, xs: seq<string>)
    requires Sorted(xs)
    ensures Sorted(Insert(x, xs))
  {
    if xs != [] {
      if Lex(x, xs[0]) {
        forall j | 0 <= j < |xs| ensures Lex(x, xs[j]) {
          if j > 0 { LexTransitive(x, xs[0], xs[j]); }
        }
      } else {
        LexTotal(x, xs[0]);
        InsertSorted(x, xs[1..]);
        InsertContents(x, xs[1..]);
        var rest := Insert(x, xs[1..]);
        forall j | 0 <= j < |rest| ensures Lex(xs[0], rest[j]) {
          assert rest[j] in multiset(rest);
          assert rest[j] == x || rest[j] in xs[1..];
        }
      }
    }
  }

  lemma {:induction false} SortStringsSorts(xs: seq<string>)
    ensures Sorted(SortStrings(xs)) && multiset(SortStrings(xs)) == multiset(xs)
  {
    if xs != [] {
      SortStringsSorts(xs[1..]);
      InsertSorted(xs[0], SortStrings(xs[1..]));
      InsertContents(xs[0], SortStrings(xs[1..]));
      assert xs == [xs[0]] + xs[1..];
    }
  }

  lemma SortedHeadIsLeast(xs: seq<string>, x: string)
    requires Sorted(xs) && x in multiset(xs)
    ensures xs != [] && Lex(xs[0], x)
  {
    assert x in xs;
    var i :| 0 <= i < |xs| && xs[i] == x;
    if i == 0 { LexTotal(x, x); }
  }

  /** A multiset has one sorted listing, so it does not matter how the sort is done. */
  lemma {:induction false} SortedListingUnique(xs: seq<string>, ys: seq<string>)
    requires Sorted(xs) && Sorted(ys) && multiset(xs) == multiset(ys)
    ensures xs == ys
  {
    if xs == [] {
      assert |multiset(ys)| == |ys|;
    } else {
      assert xs[0] in multiset(xs);
      SortedHeadIsLeast(ys, xs[0]);
      assert ys[0] in multiset(ys);
      SortedHeadIsLeast(xs, ys[0]);
      LexAntisymmetric(xs[0], ys[0]);
      TailContents(xs);
      TailContents(ys);
      SortedListingUnique(xs[1..], ys[1..]);
    }
  }

  lemma TailContents(xs: seq<string>)
    requires xs != []
    ensures multiset(xs[1..]) == multiset(xs) - multiset{xs[0]}
    ensures xs == [xs[0]] + xs[1..]
  {
    assert xs == [xs[0]] + xs[1..];
  }

  // ---------- the key ----------

  datatype IssueRequest = IssueRequest(runID: string, toolName: string, title: string, body: string,
                                       labels: seq<string>, index: Option<int>)

  function TrimAll(labels: seq<string>): seq<string> {
    seq(|labels|, i requires 0 <= i < |labels| => TrimSpace(labels[i]))
  }

  /** The payload struct, fields in declaration order; an absent index is omitted. */
  function Payload(runID: string, toolName: string, title: string, body: string, labels: seq<string>, index: Option<int>): Json {
    Obj([Member("run_id", Str(runID)), Member("tool_name", Str(toolName)), Member("title", Str(title)),
         Member("body", Str(body)), Member("labels", Arr(Strings(labels)))]
        + if index == None then [] else [Member("index", Num(index.value))])
  }

  function CanonicalPayload(r: IssueRequest): Json {
    Payload(r.runID, r.toolName, TrimSpace(r.title), r.body, SortStrings(TrimAll(r.labels)), r.index)
  }

  function Key(r: IssueRequest): Digest { Sha256(Encode(CanonicalPayload(r))) }

  method MakeIssueIdempotencyKey(r: IssueRequest) returns (key: Digest)
    ensures key == Key(r)
  {
    var canonicalLabels: seq<string> := [];
    for i := 0 to |r.labels|
      invariant canonicalLabels == TrimAll(r.labels)[..i]
    {
      canonicalLabels := canonicalLabels + [TrimSpace(r.labels[i])];
    }
    assert TrimAll(r.labels)[..|r.labels|] == TrimAll(r.labels);
    canonicalLabels := SortStrings(canonicalLabels);
    var b := Encode(Payload(r.runID, r.toolName, TrimSpace(r.title), r.body, canonicalLabels, r.index));
    return Sha256(b);
  }

  lemma StringsInjective(xs: seq<string>, ys: seq<string>)
    requires Strings(xs) == Strings(ys)
    ensures xs == ys
  {
    assert |xs| == |Strings(xs)| == |ys|;
    forall i | 0 <= i < |xs| ensures xs[i] == ys[i] {
      assert Strings(xs)[i] == Str(xs[i]) && Strings(ys)[i] == Str(ys[i]);
    }
  }

  lemma PayloadInjective(r1: string, t1: string, ti1: string, b1: string, l1: seq<string>, i1: Option<int>,
                         r2: string, t2: string, ti2: string, b2: string, l2: seq<string>, i2: Option<int>)
    requires Payload(r1, t1, ti1, b1, l1, i1) == Payload(r2, t2, ti2, b2, l2, i2)
    ensures r1 == r2 && t1 == t2 && ti1 == ti2 && b1 == b2 && l1 == l2 && i1 == i2
  {
    var m1, m2 := Payload(r1, t1, ti1, b1, l1, i1).members, Payload(r2, t2, ti2, b2, l2, i2).members;
    assert m1[0].value == m2[0].value && m1[1].value == m2[1].value && m1[2].value == m2[2].value;
    assert m1[3].value == m2[3].value && m1[4].value == m2[4].value;
    StringsInjective(l1, l2);
    assert |m1| == |m2|;
    if i1 != None { assert m1[5].value == m2[5].value; }
  }

  /** Requests the key identifies. */
  predicate SameIssue(p: IssueRequest, q: IssueRequest) {
    && p.runID == q.runID && p.toolName == q.toolName
    && TrimSpace(p.title) == TrimSpace(q.title) && p.body == q.body
    && p.index == q.index
    && multiset(seq(|p.labels|, i requires 0 <= i < |p.labels| => TrimSpace(p.labels[i])))
       == multiset(seq(|q.labels|, i requires 0 <= i < |q.labels| => TrimSpace(q.labels[i])))
  }

  /** Main result: two requests get the same key exactly when run, tool, trimmed title, body,
      optional index and the multiset of trimmed labels agree. */
  lemma KeyIdentifiesIssue(p: IssueRequest, q: IssueRequest)
    ensures Key(p) == Key(q) <==> SameIssue(p, q)
  {
    var l1, l2 := TrimAll(p.labels), TrimAll(q.labels);
    assert l1 == seq(|p.labels|, i requires 0 <= i < |p.labels| => TrimSpace(p.labels[i]));
    assert l2 == seq(|q.labels|, i requires 0 <= i < |q.labels| => TrimSpace(q.labels[i]));
    SortStringsSorts(l1);
    SortStringsSorts(l2);
    if SameIssue(p, q) {
      SortedListingUnique(SortStrings(l1), SortStrings(l2));
    }
    if Key(p) == Key(q) {
      EncodeInjective(CanonicalPayload(p), CanonicalPayload(q));
      PayloadInjective(p.runID, p.toolName, TrimSpace(p.title), p.body, SortStrings(l1), p.index,
                       q.runID, q.toolName, TrimSpace(q.title), q.body, SortStrings(l2), q.index);
    }
  }

  // ---------- batches ----------

  const BATCH_TOOL := "github.issues.batch_create"

  datatype IssueInput = IssueInput(title: string, body: string, labels: seq<string>)

  function BatchRequest(runID: string, items: seq<IssueInput>, i: nat): IssueRequest
    requires i < |items|
  {
    IssueRequest(runID, BATCH_TOOL, items[i].title, items[i].body, items[i].labels, Some(i))
  }

  function BatchKeys(runID: string, items: seq<IssueInput>): (keys: seq<Digest>)
    ensures |keys| == |items|
  {
    seq(|items|, i requires 0 <= i < |items| => Key(BatchRequest(runID, items, i)))
  }

  /** Items of one batch never share a key, even when their contents are equal, nor does a batch
      item share one with a single request. */
  lemma BatchKeysDistinct(runID: string, items: seq<IssueInput>, i: nat, j: nat, single: IssueRequest)
    requires i < |items| && j < |items|
    ensures BatchKeys(runID, items)[i] == BatchKeys(runID, items)[j] <==> i == j
    ensures single.index == None ==> BatchKeys(runID, items)[i] != Key(single)
  {
    KeyIdentifiesIssue(BatchRequest(runID, items, i), BatchRequest(runID, items, j));
    KeyIdentifiesIssue(BatchRequest(runID, items, i), single);
  }
}

/** The batch issue handler: a loop that replays, creates and records item by item, in partial or strict
    mode, and what sequences of retries of one batch do. */
module Batch {
  import opened Wrappers
  import opened Json
  import opened IssueExchange
  import opened Store
  import opened Audit
  import IssueKey

  const MAX_BATCH_SIZE := 50

  // ---------- one pass over the items ----------

  datatype Attempt = Replayed | Fresh | DryRan | Failed

  function AttemptOn(done: bool, accepted: bool, dryRun: bool): Attempt {
    if done then Replayed else if dryRun then DryRan else if accepted then Fresh else Failed
  }

  /** One pass: item by item up to the end, or in strict mode up to the first failure. `done` says which
      items have an ok row, `accepted` which GitHub would create. */
  ghost predicate Pass(done: seq<bool>, accepted: seq<bool>, dryRun: bool, strict: bool, attempts: seq<Attempt>) {
    && |done| == |accepted| && |attempts| <= |done|
    && (forall i | 0 <= i < |attempts| :: attempts[i] == AttemptOn(done[i], accepted[i], dryRun))
    && (strict ==> forall i | 0 <= i < |attempts| - 1 :: attempts[i] != Failed)
    && (|attempts| < |done| ==> strict && attempts != [] && attempts[|attempts| - 1] == Failed)
  }

  /** Which items have an ok row after the pass. */
  function DoneAfter(done: seq<bool>, attempts: seq<Attempt>): (after: seq<bool>)
    ensures |after| == |done|
  {
    seq(|done|, i requires 0 <= i < |done| => done[i] || (i < |attempts| && (attempts[i] == Fresh || attempts[i] == DryRan)))
  }

  function Count(attempts: seq<Attempt>, a: Attempt): nat {
    if attempts == [] then 0
    else Count(attempts[..|attempts| - 1], a) + if attempts[|attempts| - 1] == a then 1 else 0
  }

  lemma CountAppend(attempts: seq<Attempt>, last: Attempt, a: Attempt)
    ensures Count(attempts + [last], a) == Count(attempts, a) + if last == a then 1 else 0
  {
    assert (attempts + [last])[..|attempts|] == attempts;
  }

  /** Accounting at every loop head: processed items are replayed, failed, created or dry-run. */
  lemma {:induction false} EveryAttemptCounted(attempts: seq<Attempt>)
    ensures |attempts| == Count(attempts, Replayed) + Count(attempts, Failed) + Count(attempts, Fresh) + Count(attempts, DryRan)
  {
    if attempts != [] { EveryAttemptCounted(attempts[..|attempts| - 1]); }
  }

  lemma {:induction false} CountZero(attempts: seq<Attempt>, a: Attempt)
    ensures Count(attempts, a) == 0 <==> forall i | 0 <= i < |attempts| :: attempts[i] != a
  {
    if attempts != [] {
      CountZero(attempts[..|attempts| - 1], a);
      assert attempts == attempts[..|attempts| - 1] + [attempts[|attempts| - 1]];
    }
  }

  // ---------- status ----------

  datatype BatchStatus = BatchOk | BatchFail | BatchPartial

  function DeriveBatchStatus(total: int, replayed: int, errCount: int): BatchStatus {
    if errCount <= 0 then BatchOk else if errCount == total - replayed then BatchFail else BatchPartial
  }

  /** What the three-way status means for the items processed: ok when none failed, fail when something
      failed and nothing but replays succeeded, partial when something failed and something was created. */
  lemma StatusMeaning(attempts: seq<Attempt>)
    ensures var status := DeriveBatchStatus(|attempts|, Count(attempts, Replayed), Count(attempts, Failed));
            && (status == BatchOk <==> forall i | 0 <= i < |attempts| :: attempts[i] != Failed)
            && (status == BatchFail <==> && (exists i | 0 <= i < |attempts| :: attempts[i] == Failed)
                                         && (forall i | 0 <= i < |attempts| :: attempts[i] == Failed || attempts[i] == Replayed))
            && (status == BatchPartial <==> && (exists i | 0 <= i < |attempts| :: attempts[i] == Failed)
                                            && (exists i | 0 <= i < |attempts| :: attempts[i] == Fresh || attempts[i] == DryRan))
  {
    EveryAttemptCounted(attempts);
    CountZero(attempts, Failed);
    CountZero(attempts, Fresh);
    CountZero(attempts, DryRan);
  }

  /** `created_fresh` is reported as processed minus replayed, so it counts failed items too: it is the
      number of items that succeeded afresh exactly when nothing failed. */
  lemma CreatedFreshIsExact(attempts: seq<Attempt>)
    ensures |attempts| - Count(attempts, Replayed) == Count(attempts, Fresh) + Count(attempts, DryRan) <==> Count(attempts, Failed) == 0
  {
    EveryAttemptCounted(attempts);
  }

  /** A single failing item is reported as created. */
  lemma FailureReportedAsCreated()
    ensures Pass([false], [false], false, false, [Failed])
    ensures |[Failed]| - Count([Failed], Replayed) == 1 && Count([Failed], Fresh) == 0
  {
    assert [Failed][..0] == [];
  }

  // ---------- modes ----------

  /** A pass is determined by its inputs. */
  lemma PassUnique(done: seq<bool>, accepted: seq<bool>, dryRun: bool, strict: bool, a: seq<Attempt>, b: seq<Attempt>)
    requires Pass(done, accepted, dryRun, strict, a) && Pass(done, accepted, dryRun, strict, b)
    ensures a == b
  {
    assert forall i | 0 <= i < |a| && i < |b| :: a[i] == b[i];
  }

  /** Strict and partial mode agree, result by result, exactly when no item before the last one fails. */
  lemma ModesAgree(done: seq<bool>, accepted: seq<bool>, dryRun: bool, strictly: seq<Attempt>, partially: seq<Attempt>)
    requires Pass(done, accepted, dryRun, true, strictly) && Pass(done, accepted, dryRun, false, partially)
    ensures strictly <= partially
    ensures strictly == partially <==> forall i | 0 <= i < |done| - 1 :: partially[i] != Failed
  {
  }

  // ---------- retries ----------

  /** One call of the handler on the batch, not a dry run, that met no storage failure. */
  datatype Try = Try(accepted: seq<bool>, strict: bool, attempts: seq<Attempt>)

  /** Which items have an ok row once the first k calls are over. */
  function DoneAt(done: seq<bool>, tries: seq<Try>, k: nat): (at: seq<bool>)
    requires k <= |tries|
    ensures |at| == |done|
    decreases k
  {
    if k == 0 then done else DoneAfter(DoneAt(done, tries, k - 1), tries[k - 1].attempts)
  }

  ghost predicate PassAt(done: seq<bool>, tries: seq<Try>, k: nat)
    requires k < |tries|
  {
    Pass(DoneAt(done, tries, k), tries[k].accepted, false, tries[k].strict, tries[k].attempts)
  }

  /** Every call works on what the earlier ones recorded. */
  ghost predicate Retries(done: seq<bool>, tries: seq<Try>) {
    forall k | 0 <= k < |tries| :: PassAt(done, tries, k)
  }

  /** How often GitHub was made to create item i during the first k calls. */
  function Creations(tries: seq<Try>, k: nat, i: nat): nat
    requires k <= |tries|
    decreases k
  {
    if k == 0 then 0
    else
      Creations(tries, k - 1, i)
      + if i < |tries[k - 1].attempts| && tries[k - 1].attempts[i] == Fresh then 1 else 0
  }

  /** Main result: over any sequence of retries each item is created at most once, and once exactly when
      it gained its ok row. */
  lemma {:induction false} CreatedAtMostOnce(done: seq<bool>, tries: seq<Try>, k: nat, i: nat)
    requires Retries(done, tries) && k <= |tries| && i < |done|
    ensures Creations(tries, k, i) == if !done[i] && DoneAt(done, tries, k)[i] then 1 else 0
    ensures done[i] ==> DoneAt(done, tries, k)[i]
    decreases k
  {
    if k > 0 {
      assert PassAt(done, tries, k - 1);
      CreatedAtMostOnce(done, tries, k - 1, i);
    }
  }

  lemma {:induction false} DoneStays(done: seq<bool>, tries: seq<Try>, j: nat, k: nat, i: nat)
    requires j <= k <= |tries| && i < |done| && DoneAt(done, tries, j)[i]
    ensures DoneAt(done, tries, k)[i]
    decreases k
  {
    if j < k { DoneStays(done, tries, j, k - 1, i); }
  }

  lemma SucceededIsDone(done: seq<bool>, tries: seq<Try>, j: nat, k: nat, i: nat)
    requires Retries(done, tries) && j < k <= |tries| && i < |tries[j].attempts| <= |done|
    requires tries[j].attempts[i] != Failed
    ensures DoneAt(done, tries, k)[i]
  {
    assert PassAt(done, tries, j);
    DoneStays(done, tries, j + 1, k, i);
  }

  /** Main result: unless the mode was tightened in between, a later retry gets at least as far, so
      `stopped_at` never decreases, and every item that succeeded before is replayed: the set of
      replayed items only grows. */
  lemma RetriesOnlyProgress(done: seq<bool>, tries: seq<Try>, j: nat, k: nat)
    requires Retries(done, tries) && j < k < |tries| && (tries[j].strict || !tries[k].strict)
    ensures |tries[j].attempts| <= |tries[k].attempts|
    ensures forall i | 0 <= i < |tries[j].attempts| && tries[j].attempts[i] != Failed :: tries[k].attempts[i] == Replayed
  {
    var first, later := tries[j].attempts, tries[k].attempts;
    assert PassAt(done, tries, j) && PassAt(done, tries, k);
    forall i | 0 <= i < |first| && first[i] != Failed ensures i < |later| ==> later[i] == Replayed {
      SucceededIsDone(done, tries, j, k, i);
    }
    var p := |later| - 1;
    assert 0 <= p < |first| && first[p] != Failed ==> later[p] == Replayed;
  }

  lemma AllReplayedOnceDone(done: seq<bool>, tries: seq<Try>, k: nat, m: nat)
    requires Retries(done, tries) && k < m < |tries| && |tries[k].attempts| == |done|
    requires forall j | 0 <= j < |done| :: tries[k].attempts[j] != Failed
    ensures |tries[m].attempts| == |done| && forall i | 0 <= i < |done| :: tries[m].attempts[i] == Replayed
  {
    assert PassAt(done, tries, m);
    forall j | 0 <= j < |done| ensures DoneAt(done, tries, m)[j] { SucceededIsDone(done, tries, k, m, j); }
  }

  /** Main result: after the first retry without a failure every item has its ok row, each item the
      batch started without was created exactly once, and from then on everything is replayed. */
  lemma CleanRetryCompletes(done: seq<bool>, tries: seq<Try>, k: nat, m: nat, i: nat)
    requires Retries(done, tries) && k < m <= |tries| && i < |done|
    requires forall j | 0 <= j < |tries[k].attempts| :: tries[k].attempts[j] != Failed
    ensures DoneAt(done, tries, m)[i] && Creations(tries, m, i) == if done[i] then 0 else 1
    ensures m < |tries| ==> |tries[m].attempts| == |done| && tries[m].attempts[i] == Replayed
  {
    assert PassAt(done, tries, k);
    SucceededIsDone(done, tries, k, m, i);
    CreatedAtMostOnce(done, tries, m, i);
    if m < |tries| { AllReplayedOnceDone(done, tries, k, m); }
  }

  /** A dry run leaves an ok row under the key of every item, so the real call that follows replays
      everything and creates nothing. */
  lemma DryRunShadowsTheRealCall(done: seq<bool>, accepted: seq<bool>, strict: bool, rehearsal: seq<Attempt>,
                                 accepted': seq<bool>, strict': bool, attempts: seq<Attempt>)
    requires Pass(done, accepted, true, strict, rehearsal)
    requires Pass(DoneAfter(done, rehearsal), accepted', false, strict', attempts)
    ensures |attempts| == |done| && forall i | 0 <= i < |attempts| :: attempts[i] == Replayed
  {
    assert forall i | 0 <= i < |done| :: DoneAfter(done, rehearsal)[i];
  }

  // ---------- the handler ----------

  datatype BatchCall = BatchCall(runID: string, repo: string, transport: Transport, items: seq<IssueKey.IssueInput>,
                                 dryRun: bool, strict: bool)

  /** What the environment does to item i: the replay lookup, GitHub's answer, the writes of `Record`. */
  datatype ItemEnv = ItemEnv(replay: ReplayEnv, reply: Option<Issue>, record: RecordEnv)

  datatype BatchResult = BatchResult(index: nat, issue: Option<Issue>, replayed: bool, error: bool)
  datatype Response = Response(status: BatchStatus, total: nat, processed: nat, errors: nat, replayed: nat,
                               createdFresh: int, stoppedAt: Option<nat>, results: seq<BatchResult>)
  datatype BatchError = NoSuchRun | ToolForbidden | EmptyBatch | TooMany | ReplayBroke(index: nat) | RecordBroke(index: nat)

  /** What GitHub was asked to create and did. */
  datatype Creation = Creation(input: IssueKey.IssueInput, issue: Issue)

  class GitHub {
    var created: seq<Creation>

    constructor ()
      ensures created == []
    {
      created := [];
    }

    method CreateIssue(input: IssueKey.IssueInput, reply: Option<Issue>) returns (issue: Option<Issue>)
      modifies this
      ensures issue == reply
      ensures created == old(created) + if reply.Some? then [Creation(input, reply.value)] else []
    {
      if reply.Some? {
        created := created + [Creation(input, reply.value)];
      }
      return reply;
    }
  }

  function KeyOf(call: BatchCall, i: nat): Key
    requires i < |call.items|
  {
    Derived(IssueKey.Key(IssueKey.BatchRequest(call.runID, call.items, i)))
  }

  function SlotOf(call: BatchCall, i: nat): Slot
    requires i < |call.items|
  {
    Slot(call.runID, IssueKey.BATCH_TOOL, KeyOf(call, i))
  }

  lemma SlotsDistinct(call: BatchCall, i: nat, j: nat)
    requires i < |call.items| && j < |call.items|
    ensures SlotOf(call, i) == SlotOf(call, j) <==> i == j
  {
    IssueKey.BatchKeysDistinct(call.runID, call.items, i, j, IssueKey.BatchRequest(call.runID, call.items, i));
  }

  function ItemOutcome(call: BatchCall, reply: Option<Issue>): Outcome {
    if call.dryRun then DryRun else if reply.Some? then Created(reply.value) else GitHubError
  }

  function ItemMembers(input: IssueKey.IssueInput): seq<Member> {
    [Member("title", Str(input.title)), Member("body", Str(input.body))]
    + if input.labels == [] then [] else [Member("labels", Arr(Strings(input.labels)))]
  }

  // what a reader of the stored request document makes of it

  function DecodeStrings(vs: seq<Json>): Option<seq<string>> {
    if vs == [] then Some([])
    else if !vs[0].Str? || DecodeStrings(vs[1..]).None? then None
    else Some([vs[0].s] + DecodeStrings(vs[1..]).value)
  }

  function DecodeRequestMember(r: IssueKey.IssueInput, m: Member): Option<IssueKey.IssueInput> {
    match (m.name, m.value)
    case ("title", Str(s)) => Some(r.(title := s))
    case ("body", Str(s)) => Some(r.(body := s))
    case ("labels", Arr(vs)) => if DecodeStrings(vs).Some? then Some(r.(labels := DecodeStrings(vs).value)) else None
    case _ => if m.name in {"title", "body", "labels"} then None else Some(r)
  }

  function DecodeRequestMembers(r: IssueKey.IssueInput, ms: seq<Member>): Option<IssueKey.IssueInput>
    decreases ms
  {
    if ms == [] then Some(r)
    else
      match DecodeRequestMember(r, ms[0])
      case None => None
      case Some(next) => DecodeRequestMembers(next, ms[1..])
  }

  function DecodeRequest(text: string): Option<IssueKey.IssueInput> {
    match Parse(text)
    case Some(Obj(ms)) => DecodeRequestMembers(IssueKey.IssueInput("", "", []), ms)
    case _ => None
  }

  lemma {:induction false} DecodeStringsInverts(xs: seq<string>)
    ensures DecodeStrings(Strings(xs)) == Some(xs)
  {
    if xs != [] {
      assert Strings(xs)[1..] == Strings(xs[1..]);
      DecodeStringsInverts(xs[1..]);
      assert xs == [xs[0]] + xs[1..];
    }
  }

  lemma DecodeStep(r: IssueKey.IssueInput, m: Member, ms: seq<Member>)
    requires DecodeRequestMember(r, m).Some?
    ensures DecodeRequestMembers(r, [m] + ms) == DecodeRequestMembers(DecodeRequestMember(r, m).value, ms)
  {
    assert ([m] + ms)[0] == m && ([m] + ms)[1..] == ms;
  }

  /** The stored request document holds the item: its title, body and labels can be read back from it. */
  lemma RequestDocumentInverts(input: IssueKey.IssueInput)
    ensures DecodeRequest(Encode(Obj(ItemMembers(input)))) == Some(input)
  {
    var title, body, labels := Member("title", Str(input.title)), Member("body", Str(input.body)), Member("labels", Arr(Strings(input.labels)));
    var rest := if input.labels == [] then [] else [labels] + [];
    var titled := IssueKey.IssueInput(input.title, "", []);
    var bodied := IssueKey.IssueInput(input.title, input.body, []);
    ParseEncode(Obj(ItemMembers(input)));
    assert ItemMembers(input) == [title] + ([body] + rest);
    DecodeStep(IssueKey.IssueInput("", "", []), title, [body] + rest);
    DecodeStep(titled, body, rest);
    DecodeStringsInverts(input.labels);
    if input.labels != [] { DecodeStep(bodied, labels, []); }
  }

  function ItemRecord(call: BatchCall, i: nat, reply: Option<Issue>): RecordInput
    requires i < |call.items|
  {
    var input, outcome := call.items[i], ItemOutcome(call, reply);
    RecordInput(call.runID, IssueKey.BATCH_TOOL, Some(KeyOf(call, i)), Some(Encode(Obj(ItemMembers(input)))),
                Some(Encode(ResponseJson(call.transport, IssueForm(call.repo, input.title, input.body, input.labels), outcome))),
                outcome.GitHubError?, [])
  }

  /** Does item i have an ok row? */
  predicate HasOkRow(st: Store, call: BatchCall, i: nat)
    requires i < |call.items|
  {
    LookupOk(st.calls, SlotOf(call, i)).Some?
  }

  /** Having an ok row and having exactly one are the same. */
  lemma OneOkRowEach(st: Store, call: BatchCall, i: nat)
    requires Sound(st) && i < |call.items|
    ensures OkRows(st.calls, SlotOf(call, i)) == if HasOkRow(st, call, i) then 1 else 0
  {
    LookupMeaning(st.calls, SlotOf(call, i));
    assert OkRows(st.calls, SlotOf(call, i)) <= 1;
  }

  function DoneIn(st: Store, call: BatchCall): (done: seq<bool>)
    ensures |done| == |call.items|
  {
    seq(|call.items|, i requires 0 <= i < |call.items| => HasOkRow(st, call, i))
  }

  function AcceptedIn(call: BatchCall, envs: seq<ItemEnv>): (accepted: seq<bool>)
    requires |envs| == |call.items|
    ensures |accepted| == |call.items|
  {
    seq(|envs|, i requires 0 <= i < |envs| => envs[i].reply.Some?)
  }

  /** What recording item i does to the ok rows of the batch. */
  lemma RecordItem(allowed: bool, st: Store, call: BatchCall, i: nat, reply: Option<Issue>, env: RecordEnv, j: nat)
    requires Sound(st) && i < |call.items| && j < |call.items|
    ensures var (st', r) := RecordEffect(allowed, st, ItemRecord(call, i, reply), env);
            HasOkRow(st', call, j) == (HasOkRow(st, call, j) || (r.Ok? && j == i && !ItemOutcome(call, reply).GitHubError?))
  {
    var input := ItemRecord(call, i, reply);
    var (st', r) := RecordEffect(allowed, st, input, env);
    RecordAddsTheRow(allowed, st, input, env);
    SlotsDistinct(call, i, j);
    if r.Ok? { LookupAppend(st.calls, r.value.call, SlotOf(call, j)); }
  }

  /** Every recorded item leaves a request document that reads as the item. */
  lemma StoredRequestReads(allowed: bool, st: Store, call: BatchCall, i: nat, reply: Option<Issue>, env: RecordEnv)
    requires Sound(st) && i < |call.items| && RecordEffect(allowed, st, ItemRecord(call, i, reply), env).1.Ok?
    ensures var (st', r) := RecordEffect(allowed, st, ItemRecord(call, i, reply), env);
            && ReadArtifact(st', r.value.call.request).Some?
            && DecodeRequest(ReadArtifact(st', r.value.call.request).value) == Some(call.items[i])
  {
    var input := ItemRecord(call, i, reply);
    RecordAddsTheRow(allowed, st, input, env);
    assert DocStored(RecordEffect(allowed, st, input, env).0, st.nextID, input, 0);
    RequestDocumentInverts(call.items[i]);
  }

  const NO_FAULT := ReplayEnv(true, true)

  /** Whatever ok row item i has can be replayed. */
  predicate Replayable(st: Store, call: BatchCall, i: nat)
    requires i < |call.items|
  {
    ReplayEffect(st, SlotOf(call, i), None, NO_FAULT).Ok?
  }

  lemma IssueStays(st: Store, st': Store, call: BatchCall, j: nat)
    requires Sound(st) && Extends(st, st') && j < |call.items| && LookupOk(st'.calls, SlotOf(call, j)) == LookupOk(st.calls, SlotOf(call, j))
    ensures IssueIn(st', call, j) == IssueIn(st, call, j)
  {
    ReplayStays(st, st', SlotOf(call, j));
  }

  lemma ReplayStays(st: Store, st': Store, slot: Slot)
    requires Sound(st) && Extends(st, st') && LookupOk(st'.calls, slot) == LookupOk(st.calls, slot)
    ensures ReplayEffect(st', slot, None, NO_FAULT) == ReplayEffect(st, slot, None, NO_FAULT)
  {
    LookupMeaning(st.calls, slot);
    if LookupOk(st.calls, slot).Some? {
      var call := LookupOk(st.calls, slot).value;
      assert CallBacked(st, call);
      assert ArtifactBacked(st, call.response);
      assert Content(st', call.response) == Content(st, call.response);
    }
  }

  /** What the handler records it can replay. */
  lemma RecordedItemReplayable(allowed: bool, st: Store, call: BatchCall, i: nat, reply: Option<Issue>, env: RecordEnv, j: nat)
    requires Sound(st) && i < |call.items| && j < |call.items| && Replayable(st, call, j)
    requires !HasOkRow(st, call, i)
    ensures Replayable(RecordEffect(allowed, st, ItemRecord(call, i, reply), env).0, call, j)
  {
    var input := ItemRecord(call, i, reply);
    var (st', r) := RecordEffect(allowed, st, input, env);
    RecordKeepsSound(allowed, st, input, env);
    SlotsDistinct(call, i, j);
    if i == j && r.Ok? && !input.failed {
      RecordThenReplay(allowed, st, input, env, st', None);
      ReplayedIssue(call.transport, IssueForm(call.repo, call.items[i].title, call.items[i].body, call.items[i].labels),
                    ItemOutcome(call, reply));
    } else {
      RecordAddsTheRow(allowed, st, input, env);
      if r.Ok? { LookupAppend(st.calls, r.value.call, SlotOf(call, j)); }
      ReplayStays(st, st', SlotOf(call, j));
    }
  }

  /** Nothing fails but, perhaps, GitHub. */
  predicate Harmless(env: ItemEnv) {
    env.replay == NO_FAULT && env.record == RecordEnv([], true)
  }

  lemma HarmlessRecordWorks(st: Store, call: BatchCall, i: nat, env: ItemEnv)
    requires Sound(st) && i < |call.items| && call.runID in st.runs && Harmless(env) && !HasOkRow(st, call, i)
    ensures RecordEffect(true, st, ItemRecord(call, i, env.reply), env.record).1.Ok?
  {
    RecordIsExact(true, st, ItemRecord(call, i, env.reply), env.record);
  }

  function AttemptIn(st: Store, call: BatchCall, i: nat, env: ItemEnv): Attempt
    requires i < |call.items|
  {
    AttemptOn(HasOkRow(st, call, i), env.reply.Some?, call.dryRun)
  }

  function CreationIn(call: BatchCall, i: nat, env: ItemEnv): seq<Creation>
    requires i < |call.items|
  {
    if env.reply.Some? && !call.dryRun then [Creation(call.items[i], env.reply.value)] else []
  }

  /** The result entry of an attempt, but for the issue a replay decodes. */
  predicate Reports(result: BatchResult, i: nat, attempt: Attempt, reply: Option<Issue>) {
    && result.index == i && result.replayed == (attempt == Replayed) && result.error == (attempt == Failed)
    && (attempt != Replayed ==> result.issue == if attempt == Fresh then reply else None)
  }

  /** What one turn of the loop does to the storage, and what it reports. */
  function ItemEffect(allowed: bool, st: Store, call: BatchCall, i: nat, env: ItemEnv): (Store, Result<BatchResult, BatchError>)
    requires i < |call.items|
  {
    match ReplayEffect(st, SlotOf(call, i), None, env.replay)
    case Err(_) => (st, Err(ReplayBroke(i)))
    case Ok(Some(replay)) => (st, Ok(BatchResult(i, Some(replay.issue), true, false)))
    case Ok(None) =>
      var (st', recorded) := RecordEffect(allowed, st, ItemRecord(call, i, env.reply), env.record);
      if recorded.Err? then (st', Err(RecordBroke(i)))
      else (st', Ok(BatchResult(i, if call.dryRun then None else env.reply, false, !call.dryRun && env.reply.None?)))
  }

  function CreatedBy(st: Store, call: BatchCall, i: nat, env: ItemEnv): seq<Creation>
    requires i < |call.items|
  {
    if ReplayEffect(st, SlotOf(call, i), None, env.replay) == Ok(None) then CreationIn(call, i, env) else []
  }

  lemma ItemReports(allowed: bool, st: Store, call: BatchCall, i: nat, env: ItemEnv)
    requires i < |call.items|
    ensures var (st', r) := ItemEffect(allowed, st, call, i, env);
            && (r.Ok? ==> Reports(r.value, i, AttemptIn(st, call, i, env), env.reply))
            && (r.Err? ==> r.error == ReplayBroke(i) || r.error == RecordBroke(i))
            && (r.Err? || AttemptIn(st, call, i, env) != Fresh ==> CreatedBy(st, call, i, env) == [] || r == Err(RecordBroke(i)))
            && (r.Ok? && AttemptIn(st, call, i, env) == Fresh ==> CreatedBy(st, call, i, env) == [Creation(call.items[i], env.reply.value)])
  {
  }

  /** Does this turn give the item its ok row? */
  predicate Gains(r: Result<BatchResult, BatchError>, attempt: Attempt) {
    r.Ok? && (attempt == Fresh || attempt == DryRan)
  }

  lemma ItemKeepsSound(allowed: bool, st: Store, call: BatchCall, i: nat, env: ItemEnv)
    requires Sound(st) && i < |call.items|
    ensures Sound(ItemEffect(allowed, st, call, i, env).0) && Extends(st, ItemEffect(allowed, st, call, i, env).0)
  {
    RecordKeepsSound(allowed, st, ItemRecord(call, i, env.reply), env.record);
  }

  /** A turn gives item i its ok row exactly when it reports a fresh success or a dry run, and gives or
      takes no other. */
  lemma ItemRows(allowed: bool, st: Store, call: BatchCall, i: nat, env: ItemEnv, j: nat)
    requires Sound(st) && i < |call.items| && j < |call.items|
    ensures HasOkRow(ItemEffect(allowed, st, call, i, env).0, call, j)
            == (HasOkRow(st, call, j) || (j == i && Gains(ItemEffect(allowed, st, call, i, env).1, AttemptIn(st, call, i, env))))
  {
    if ReplayEffect(st, SlotOf(call, i), None, env.replay) == Ok(None) {
      RecordItem(allowed, st, call, i, env.reply, env.record, j);
    }
  }

  lemma ItemReplayable(allowed: bool, st: Store, call: BatchCall, i: nat, env: ItemEnv, j: nat)
    requires Sound(st) && i < |call.items| && j < |call.items| && Replayable(st, call, j)
    ensures Replayable(ItemEffect(allowed, st, call, i, env).0, call, j)
  {
    if !HasOkRow(st, call, i) { RecordedItemReplayable(allowed, st, call, i, env.reply, env.record, j); }
  }

  lemma HarmlessItemWorks(st: Store, call: BatchCall, i: nat, env: ItemEnv)
    requires Sound(st) && i < |call.items| && call.runID in st.runs && Harmless(env) && Replayable(st, call, i)
    ensures ItemEffect(true, st, call, i, env).1.Ok?
  {
    if !HasOkRow(st, call, i) { HarmlessRecordWorks(st, call, i, env); }
  }

  function Guarded(a: AuditService, env: ItemEnv): ItemEnv { env.(replay := a.Guarded(env.replay)) }

  method ProcessItem(a: AuditService, gh: GitHub, call: BatchCall, i: nat, env: ItemEnv)
    returns (r: Result<BatchResult, BatchError>)
    requires i < |call.items|
    modifies a, gh
    ensures old(a.Valid()) ==> a.Valid()
    ensures (a.View(), r) == ItemEffect(a.policy.CheckTool(IssueKey.BATCH_TOOL), old(a.View()), call, i, Guarded(a, env))
    ensures gh.created == old(gh.created) + CreatedBy(old(a.View()), call, i, Guarded(a, env))
  {
    var replay := a.ReplayResponse(SlotOf(call, i), env.replay);
    if replay.Err? {
      return Err(ReplayBroke(i));
    }
    if replay.value.Some? {
      return Ok(BatchResult(i, Some(replay.value.value.issue), true, false));
    }
    var issue := None;
    if !call.dryRun {
      issue := gh.CreateIssue(call.items[i], env.reply);
    }
    var recorded := a.Record(ItemRecord(call, i, env.reply), env.record);
    if recorded.Err? {
      return Err(RecordBroke(i));
    }
    return Ok(BatchResult(i, issue, false, !call.dryRun && issue.None?));
  }

  // ---------- the loop ----------

  /** Each attempt so far was decided by the rows the call started from. */
  ghost predicate Decided(st0: Store, call: BatchCall, envs: seq<ItemEnv>, attempts: seq<Attempt>)
    requires |envs| == |call.items|
  {
    |attempts| <= |envs| && forall k | 0 <= k < |attempts| :: attempts[k] == AttemptIn(st0, call, k, envs[k])
  }

  predicate Succeeded(attempts: seq<Attempt>, j: nat) {
    j < |attempts| && (attempts[j] == Fresh || attempts[j] == DryRan)
  }

  /** The items that gained a row are the ones that succeeded. */
  ghost predicate Gained(st0: Store, st: Store, call: BatchCall, attempts: seq<Attempt>) {
    forall j | 0 <= j < |call.items| :: HasOkRow(st, call, j) == (HasOkRow(st0, call, j) || Succeeded(attempts, j))
  }

  ghost predicate Progress(st0: Store, st: Store, call: BatchCall, envs: seq<ItemEnv>, attempts: seq<Attempt>)
    requires |envs| == |call.items|
  {
    Decided(st0, call, envs, attempts) && Gained(st0, st, call, attempts)
  }

  lemma GainedAt(allowed: bool, st0: Store, st: Store, call: BatchCall, env: ItemEnv, attempts: seq<Attempt>, j: nat)
    requires |attempts| < |call.items| && j < |call.items| && Sound(st)
    requires HasOkRow(st, call, j) == (HasOkRow(st0, call, j) || Succeeded(attempts, j))
    ensures var (st', r) := ItemEffect(allowed, st, call, |attempts|, env);
            var attempts' := if r.Ok? then attempts + [AttemptIn(st, call, |attempts|, env)] else attempts;
            HasOkRow(st', call, j) == (HasOkRow(st0, call, j) || Succeeded(attempts', j))
  {
    ItemRows(allowed, st, call, |attempts|, env, j);
  }

  lemma GainedStep(allowed: bool, st0: Store, st: Store, call: BatchCall, env: ItemEnv, attempts: seq<Attempt>)
    requires |attempts| < |call.items| && Sound(st) && Gained(st0, st, call, attempts)
    ensures var (st', r) := ItemEffect(allowed, st, call, |attempts|, env);
            Gained(st0, st', call, if r.Ok? then attempts + [AttemptIn(st, call, |attempts|, env)] else attempts)
  {
    forall j | 0 <= j < |call.items|
      ensures var (st', r) := ItemEffect(allowed, st, call, |attempts|, env);
              HasOkRow(st', call, j)
              == (HasOkRow(st0, call, j)
                  || Succeeded(if r.Ok? then attempts + [AttemptIn(st, call, |attempts|, env)] else attempts, j))
    {
      GainedAt(allowed, st0, st, call, env, attempts, j);
    }
  }

  lemma DecidedStep(st0: Store, st: Store, call: BatchCall, envs: seq<ItemEnv>, attempts: seq<Attempt>)
    requires |envs| == |call.items| && |attempts| < |envs| && Progress(st0, st, call, envs, attempts)
    ensures Decided(st0, call, envs, attempts + [AttemptIn(st, call, |attempts|, envs[|attempts|])])
  {
    assert HasOkRow(st, call, |attempts|) == HasOkRow(st0, call, |attempts|);
  }

  lemma ProgressStep(allowed: bool, st0: Store, st: Store, call: BatchCall, envs: seq<ItemEnv>, attempts: seq<Attempt>)
    requires |envs| == |call.items| && |attempts| < |envs| && Sound(st) && Progress(st0, st, call, envs, attempts)
    ensures var (st', r) := ItemEffect(allowed, st, call, |attempts|, envs[|attempts|]);
            Progress(st0, st', call, envs, if r.Ok? then attempts + [AttemptIn(st, call, |attempts|, envs[|attempts|])] else attempts)
  {
    GainedStep(allowed, st0, st, call, envs[|attempts|], attempts);
    DecidedStep(st0, st, call, envs, attempts);
  }

  /** What GitHub created, in order. */
  function CreationsOf(call: BatchCall, envs: seq<ItemEnv>, attempts: seq<Attempt>): seq<Creation>
    requires |attempts| <= |envs| == |call.items|
    decreases attempts
  {
    if attempts == [] then []
    else
      var last := |attempts| - 1;
      CreationsOf(call, envs, attempts[..last]) + if attempts[last] == Fresh then CreationIn(call, last, envs[last]) else []
  }

  lemma {:induction false} CreationsStep(allowed: bool, st: Store, call: BatchCall, envs: seq<ItemEnv>, attempts: seq<Attempt>)
    requires |envs| == |call.items| && |attempts| < |envs|
    requires ItemEffect(allowed, st, call, |attempts|, envs[|attempts|]).1.Ok?
    ensures CreationsOf(call, envs, attempts + [AttemptIn(st, call, |attempts|, envs[|attempts|])])
            == CreationsOf(call, envs, attempts) + CreatedBy(st, call, |attempts|, envs[|attempts|])
  {
    var i := |attempts|;
    assert (attempts + [AttemptIn(st, call, i, envs[i])])[..i] == attempts;
  }

  /** The answer, said about the attempts alone. */
  ghost predicate Answers(response: Response, call: BatchCall, envs: seq<ItemEnv>, attempts: seq<Attempt>)
    requires |attempts| <= |envs|
  {
    && response.total == |call.items| && response.processed == |attempts|
    && response.replayed == Count(attempts, Replayed) && response.errors == Count(attempts, Failed)
    && response.createdFresh == |attempts| - Count(attempts, Replayed)
    && response.status == DeriveBatchStatus(|attempts|, Count(attempts, Replayed), Count(attempts, Failed))
    && response.stoppedAt == (if call.strict && attempts != [] && attempts[|attempts| - 1] == Failed then Some(|attempts| - 1) else None)
    && |response.results| == |attempts|
    && forall k | 0 <= k < |attempts| :: Reports(response.results[k], k, attempts[k], envs[k].reply)
  }

  ghost predicate AllReplayable(st: Store, call: BatchCall) {
    forall j | 0 <= j < |call.items| :: Replayable(st, call, j)
  }

  lemma AllStayReplayable(allowed: bool, st: Store, call: BatchCall, i: nat, env: ItemEnv)
    requires Sound(st) && i < |call.items| && AllReplayable(st, call)
    ensures AllReplayable(ItemEffect(allowed, st, call, i, env).0, call)
  {
    forall j | 0 <= j < |call.items| ensures Replayable(ItemEffect(allowed, st, call, i, env).0, call, j) {
      ItemReplayable(allowed, st, call, i, env, j);
    }
  }

  /** Nothing but GitHub can make the call fail. */
  ghost predicate FaultFree(allowed: bool, st: Store, call: BatchCall, envs: seq<ItemEnv>) {
    && allowed && call.runID in st.runs && AllReplayable(st, call)
    && forall k | 0 <= k < |envs| :: Harmless(envs[k])
  }

  /** The loop variables against the attempts so far. */
  ghost predicate Tallied(call: BatchCall, envs: seq<ItemEnv>, attempts: seq<Attempt>,
                          replayedCount: nat, errCount: nat, out: seq<BatchResult>)
  {
    && |attempts| <= |envs| == |out| == |call.items|
    && replayedCount == Count(attempts, Replayed) && errCount == Count(attempts, Failed)
    && forall k | 0 <= k < |attempts| :: Reports(out[k], k, attempts[k], envs[k].reply)
  }

  lemma TallyStep(call: BatchCall, envs: seq<ItemEnv>, attempts: seq<Attempt>, replayedCount: nat, errCount: nat,
                  out: seq<BatchResult>, attempt: Attempt, result: BatchResult)
    requires Tallied(call, envs, attempts, replayedCount, errCount, out) && |attempts| < |envs|
    requires Reports(result, |attempts|, attempt, envs[|attempts|].reply)
    ensures Tallied(call, envs, attempts + [attempt], if result.replayed then replayedCount + 1 else replayedCount,
                    if !result.replayed && result.error then errCount + 1 else errCount, out[|attempts| := result])
  {
    CountAppend(attempts, attempt, Replayed);
    CountAppend(attempts, attempt, Failed);
  }

  ghost predicate NoneFailed(attempts: seq<Attempt>) {
    forall k | 0 <= k < |attempts| :: attempts[k] != Failed
  }

  /** The loop's variables: storage, attempts so far, counters, result entries, what GitHub has created. */
  datatype Loop = Loop(st: Store, attempts: seq<Attempt>, replayedCount: nat, errCount: nat, out: seq<BatchResult>,
                       created: seq<Creation>)

  predicate Fits(l: Loop, call: BatchCall, envs: seq<ItemEnv>) {
    |l.attempts| <= |envs| == |call.items| == |l.out|
  }

  function Advanced(l: Loop, st: Store, attempt: Attempt, result: BatchResult, created: seq<Creation>): (l': Loop)
    requires |l.attempts| < |l.out|
    ensures |l'.attempts| == |l.attempts| + 1 && |l'.out| == |l.out|
  {
    Loop(st, l.attempts + [attempt], if result.replayed then l.replayedCount + 1 else l.replayedCount,
         if !result.replayed && result.error then l.errCount + 1 else l.errCount, l.out[|l.attempts| := result], l.created + created)
  }

  /** The rest of the loop, from the item after the attempts so far: its variables at the end, and the
      index it stopped at, if it did. */
  function LoopFrom(allowed: bool, call: BatchCall, envs: seq<ItemEnv>, l: Loop): (Loop, Result<Option<nat>, BatchError>)
    requires Fits(l, call, envs)
    decreases |envs| - |l.attempts|
  {
    var i := |l.attempts|;
    if i == |envs| then (l, Ok(None))
    else
      var (st, item) := ItemEffect(allowed, l.st, call, i, envs[i]);
      var created := CreatedBy(l.st, call, i, envs[i]);
      if item.Err? then (l.(st := st, created := l.created + created), Err(item.error))
      else
        var next := Advanced(l, st, AttemptIn(l.st, call, i, envs[i]), item.value, created);
        if !item.value.replayed && item.value.error && call.strict then (next, Ok(Some(i)))
        else LoopFrom(allowed, call, envs, next)
  }

  function Attempted(l: Loop, call: BatchCall, envs: seq<ItemEnv>): Attempt
    requires Fits(l, call, envs) && |l.attempts| < |envs|
  {
    AttemptIn(l.st, call, |l.attempts|, envs[|l.attempts|])
  }

  function AfterTurn(allowed: bool, call: BatchCall, envs: seq<ItemEnv>, l: Loop): (l': Loop)
    requires Fits(l, call, envs) && |l.attempts| < |envs| && ItemEffect(allowed, l.st, call, |l.attempts|, envs[|l.attempts|]).1.Ok?
    ensures Fits(l', call, envs)
  {
    var i := |l.attempts|;
    var (st, item) := ItemEffect(allowed, l.st, call, i, envs[i]);
    Advanced(l, st, Attempted(l, call, envs), item.value, CreatedBy(l.st, call, i, envs[i]))
  }

  lemma {:induction false} LoopKeepsSound(allowed: bool, call: BatchCall, envs: seq<ItemEnv>, l: Loop)
    requires Fits(l, call, envs) && Sound(l.st)
    ensures var st := LoopFrom(allowed, call, envs, l).0.st; Sound(st) && Extends(l.st, st)
    decreases |envs| - |l.attempts|
  {
    var i := |l.attempts|;
    if i < |envs| {
      ItemKeepsSound(allowed, l.st, call, i, envs[i]);
      if ItemEffect(allowed, l.st, call, i, envs[i]).1.Ok? {
        var next := AfterTurn(allowed, call, envs, l);
        LoopKeepsSound(allowed, call, envs, next);
        ExtendsTransitive(l.st, next.st, LoopFrom(allowed, call, envs, next).0.st);
      }
    }
  }

  lemma {:induction false} LoopProgresses(allowed: bool, st0: Store, call: BatchCall, envs: seq<ItemEnv>, l: Loop)
    requires Fits(l, call, envs) && Sound(l.st) && Progress(st0, l.st, call, envs, l.attempts)
    ensures var l' := LoopFrom(allowed, call, envs, l).0; Progress(st0, l'.st, call, envs, l'.attempts)
    decreases |envs| - |l.attempts|
  {
    var i := |l.attempts|;
    if i < |envs| {
      ProgressStep(allowed, st0, l.st, call, envs, l.attempts);
      if ItemEffect(allowed, l.st, call, i, envs[i]).1.Ok? {
        ItemKeepsSound(allowed, l.st, call, i, envs[i]);
        LoopProgresses(allowed, st0, call, envs, AfterTurn(allowed, call, envs, l));
      }
    }
  }

  lemma {:induction false} LoopStaysReplayable(allowed: bool, call: BatchCall, envs: seq<ItemEnv>, l: Loop)
    requires Fits(l, call, envs) && Sound(l.st) && AllReplayable(l.st, call)
    ensures AllReplayable(LoopFrom(allowed, call, envs, l).0.st, call)
    decreases |envs| - |l.attempts|
  {
    var i := |l.attempts|;
    if i < |envs| {
      AllStayReplayable(allowed, l.st, call, i, envs[i]);
      if ItemEffect(allowed, l.st, call, i, envs[i]).1.Ok? {
        ItemKeepsSound(allowed, l.st, call, i, envs[i]);
        LoopStaysReplayable(allowed, call, envs, AfterTurn(allowed, call, envs, l));
      }
    }
  }

  lemma {:induction false} LoopMeetsNoFault(allowed: bool, call: BatchCall, envs: seq<ItemEnv>, l: Loop)
    requires Fits(l, call, envs) && Sound(l.st) && FaultFree(allowed, l.st, call, envs)
    ensures LoopFrom(allowed, call, envs, l).1.Ok?
    decreases |envs| - |l.attempts|
  {
    var i := |l.attempts|;
    if i < |envs| {
      HarmlessItemWorks(l.st, call, i, envs[i]);
      ItemKeepsSound(allowed, l.st, call, i, envs[i]);
      AllStayReplayable(allowed, l.st, call, i, envs[i]);
      LoopMeetsNoFault(allowed, call, envs, AfterTurn(allowed, call, envs, l));
    }
  }

  lemma LoopUnfold(allowed: bool, call: BatchCall, envs: seq<ItemEnv>, l: Loop)
    requires Fits(l, call, envs) && |l.attempts| < |envs|
    ensures var i := |l.attempts|;
            var (st, item) := ItemEffect(allowed, l.st, call, i, envs[i]);
            var (l', r) := LoopFrom(allowed, call, envs, l);
            if item.Err? then
              l'.attempts == l.attempts && r.Err? && (r.error == ReplayBroke(i) || r.error == RecordBroke(i))
            else if call.strict && Attempted(l, call, envs) == Failed then
              l'.attempts == l.attempts + [Failed] && r == Ok(Some(i))
            else (l', r) == LoopFrom(allowed, call, envs, AfterTurn(allowed, call, envs, l))
  {
    ItemReports(allowed, l.st, call, |l.attempts|, envs[|l.attempts|]);
  }

  /** Where the loop ends: at the end, in strict mode at the first failure, or at a fault. */
  ghost predicate EndsWell(strict: bool, n: nat, attempts: seq<Attempt>, r: Result<Option<nat>, BatchError>) {
    match r
    case Ok(None) => |attempts| == n && (strict ==> NoneFailed(attempts))
    case Ok(Some(i)) => strict && |attempts| == i + 1 <= n && attempts[i] == Failed && NoneFailed(attempts[..i])
    case Err(error) =>
      |attempts| < n && (error == ReplayBroke(|attempts|) || error == RecordBroke(|attempts|)) && (strict ==> NoneFailed(attempts))
  }

  lemma {:induction false} LoopStops(allowed: bool, call: BatchCall, envs: seq<ItemEnv>, l: Loop)
    requires Fits(l, call, envs) && (call.strict ==> NoneFailed(l.attempts))
    ensures EndsWell(call.strict, |envs|, LoopFrom(allowed, call, envs, l).0.attempts, LoopFrom(allowed, call, envs, l).1)
    decreases |envs| - |l.attempts|
  {
    var i := |l.attempts|;
    if i < |envs| {
      LoopUnfold(allowed, call, envs, l);
      var attempt := Attempted(l, call, envs);
      assert (l.attempts + [attempt])[..i] == l.attempts;
      if ItemEffect(allowed, l.st, call, i, envs[i]).1.Ok? && !(call.strict && attempt == Failed) {
        LoopStops(allowed, call, envs, AfterTurn(allowed, call, envs, l));
      }
    }
  }

  lemma {:induction false} LoopTallies(allowed: bool, call: BatchCall, envs: seq<ItemEnv>, l: Loop)
    requires Tallied(call, envs, l.attempts, l.replayedCount, l.errCount, l.out)
    ensures var l' := LoopFrom(allowed, call, envs, l).0;
            Tallied(call, envs, l'.attempts, l'.replayedCount, l'.errCount, l'.out)
    decreases |envs| - |l.attempts|
  {
    var i := |l.attempts|;
    if i < |envs| && ItemEffect(allowed, l.st, call, i, envs[i]).1.Ok? {
      var item := ItemEffect(allowed, l.st, call, i, envs[i]).1.value;
      ItemReports(allowed, l.st, call, i, envs[i]);
      TallyStep(call, envs, l.attempts, l.replayedCount, l.errCount, l.out, Attempted(l, call, envs), item);
      LoopTallies(allowed, call, envs, AfterTurn(allowed, call, envs, l));
    }
  }

  /** GitHub creates just what the fresh attempts say; one item more when its record then failed. */
  lemma {:induction false} LoopCreates(allowed: bool, call: BatchCall, envs: seq<ItemEnv>, l: Loop, created0: seq<Creation>)
    requires Fits(l, call, envs) && l.created == created0 + CreationsOf(call, envs, l.attempts)
    ensures var (l', r) := LoopFrom(allowed, call, envs, l);
            && Fits(l', call, envs)
            && (r.Ok? ==> l'.created == created0 + CreationsOf(call, envs, l'.attempts))
            && (r.Err? ==>
                  || l'.created == created0 + CreationsOf(call, envs, l'.attempts)
                  || (|l'.attempts| < |envs| && r == Err(RecordBroke(|l'.attempts|))
                      && l'.created == created0 + CreationsOf(call, envs, l'.attempts) + CreationIn(call, |l'.attempts|, envs[|l'.attempts|])))
    decreases |envs| - |l.attempts|
  {
    var i := |l.attempts|;
    if i < |envs| && ItemEffect(allowed, l.st, call, i, envs[i]).1.Ok? {
      CreationsStep(allowed, l.st, call, envs, l.attempts);
      var next := AfterTurn(allowed, call, envs, l);
      assert next.created == created0 + CreationsOf(call, envs, next.attempts);
      LoopCreates(allowed, call, envs, next, created0);
    }
  }

  // ---------- the handler ----------

  /** Reaching the end, or in strict mode the first failure, completes a pass. */
  lemma PassCompletes(st0: Store, call: BatchCall, envs: seq<ItemEnv>, attempts: seq<Attempt>, stop: Option<nat>)
    requires |envs| == |call.items| && Decided(st0, call, envs, attempts)
    requires EndsWell(call.strict, |envs|, attempts, Ok(stop))
    ensures Pass(DoneIn(st0, call), AcceptedIn(call, envs), call.dryRun, call.strict, attempts)
  {
    if stop.Some? {
      assert forall k | 0 <= k < stop.value :: attempts[..stop.value][k] == attempts[k];
    }
  }

  function ResponseOf(call: BatchCall, processed: nat, replayedCount: nat, errCount: nat, stoppedAt: Option<nat>,
                      out: seq<BatchResult>): Response
    requires processed <= |out|
  {
    Response(DeriveBatchStatus(processed, replayedCount, errCount), |call.items|, processed, errCount, replayedCount,
             processed - replayedCount, stoppedAt, out[..processed])
  }

  lemma TallyAnswers(call: BatchCall, envs: seq<ItemEnv>, l: Loop, stop: Option<nat>)
    requires Tallied(call, envs, l.attempts, l.replayedCount, l.errCount, l.out)
    requires EndsWell(call.strict, |envs|, l.attempts, Ok(stop))
    ensures Answers(ResponseOf(call, |l.attempts|, l.replayedCount, l.errCount, stop, l.out), call, envs, l.attempts)
  {
  }

  lemma RowsOfProgress(st0: Store, st: Store, call: BatchCall, envs: seq<ItemEnv>, attempts: seq<Attempt>)
    requires |envs| == |call.items| && Progress(st0, st, call, envs, attempts)
    ensures DoneIn(st, call) == DoneAfter(DoneIn(st0, call), attempts)
  {
  }

  function Start(st: Store, call: BatchCall, created: seq<Creation>): Loop {
    Loop(st, [], 0, 0, seq(|call.items|, _ => BatchResult(0, None, false, false)), created)
  }

  /** A completed call: one pass decided by the ok rows it started from; just the items that succeeded
      gained a row; GitHub created just the fresh ones; the answer reports the pass. */
  ghost predicate Completed(st0: Store, created0: seq<Creation>, call: BatchCall, envs: seq<ItemEnv>, l: Loop, response: Response)
    requires Fits(l, call, envs)
  {
    && Pass(DoneIn(st0, call), AcceptedIn(call, envs), call.dryRun, call.strict, l.attempts)
    && DoneIn(l.st, call) == DoneAfter(DoneIn(st0, call), l.attempts)
    && Answers(response, call, envs, l.attempts)
    && l.created == created0 + CreationsOf(call, envs, l.attempts)
  }

  /** A call a storage fault broke off: the items before it went as in a pass, and only GitHub may know
      of the one it happened to. */
  ghost predicate BrokeOff(st0: Store, created0: seq<Creation>, call: BatchCall, envs: seq<ItemEnv>, l: Loop, error: BatchError)
    requires Fits(l, call, envs)
  {
    var n := |l.attempts|;
    && EndsWell(call.strict, |envs|, l.attempts, Err(error))
    && DoneIn(l.st, call) == DoneAfter(DoneIn(st0, call), l.attempts)
    && (l.created == created0 + CreationsOf(call, envs, l.attempts)
        || (n < |envs| && error.RecordBroke? && l.created == created0 + CreationsOf(call, envs, l.attempts) + CreationIn(call, n, envs[n])))
  }

  /** Main result: whatever the environment does, a call keeps the storage sound and append-only and the
      batch replayable, and it breaks off only on a fault of the storage. */
  lemma BatchKeepsSound(allowed: bool, st: Store, created: seq<Creation>, call: BatchCall, envs: seq<ItemEnv>)
    requires Sound(st) && |envs| == |call.items|
    ensures var (l, r) := LoopFrom(allowed, call, envs, Start(st, call, created));
            && Sound(l.st) && Extends(st, l.st)
            && (AllReplayable(st, call) ==> AllReplayable(l.st, call))
            && (FaultFree(allowed, st, call, envs) ==> r.Ok?)
  {
    var start := Start(st, call, created);
    LoopKeepsSound(allowed, call, envs, start);
    if AllReplayable(st, call) { LoopStaysReplayable(allowed, call, envs, start); }
    if FaultFree(allowed, st, call, envs) { LoopMeetsNoFault(allowed, call, envs, start); }
  }

  lemma BatchPasses(allowed: bool, st: Store, created: seq<Creation>, call: BatchCall, envs: seq<ItemEnv>)
    requires Sound(st) && |envs| == |call.items|
    requires LoopFrom(allowed, call, envs, Start(st, call, created)).1.Ok?
    ensures var l := LoopFrom(allowed, call, envs, Start(st, call, created)).0;
            && Pass(DoneIn(st, call), AcceptedIn(call, envs), call.dryRun, call.strict, l.attempts)
            && DoneIn(l.st, call) == DoneAfter(DoneIn(st, call), l.attempts)
  {
    var start := Start(st, call, created);
    var (l, r) := LoopFrom(allowed, call, envs, start);
    LoopProgresses(allowed, st, call, envs, start);
    LoopStops(allowed, call, envs, start);
    PassCompletes(st, call, envs, l.attempts, r.value);
    RowsOfProgress(st, l.st, call, envs, l.attempts);
  }

  // ---------- which issue a replayed item reports ----------

  /** The issue a replay of item i would report. */
  function IssueIn(st: Store, call: BatchCall, i: nat): Option<Issue>
    requires i < |call.items|
  {
    match ReplayEffect(st, SlotOf(call, i), None, NO_FAULT)
    case Ok(Some(replay)) => Some(replay.issue)
    case _ => None
  }

  /** What a success leaves to be replayed: over MCP the created issue, over HTTP and after a dry run an empty one. */
  function Recorded(call: BatchCall, reply: Option<Issue>): Issue {
    if call.transport == Mcp && !call.dryRun && reply.Some? then reply.value else ZERO_ISSUE
  }

  lemma RecordedIssue(allowed: bool, st: Store, call: BatchCall, i: nat, env: ItemEnv)
    requires Sound(st) && i < |call.items| && RecordEffect(allowed, st, ItemRecord(call, i, env.reply), env.record).1.Ok?
    requires call.dryRun || env.reply.Some?
    ensures IssueIn(RecordEffect(allowed, st, ItemRecord(call, i, env.reply), env.record).0, call, i) == Some(Recorded(call, env.reply))
  {
    var input := ItemRecord(call, i, env.reply);
    var st' := RecordEffect(allowed, st, input, env.record).0;
    RecordKeepsSound(allowed, st, input, env.record);
    RecordThenReplay(allowed, st, input, env.record, st', None);
    ReplayedIssue(call.transport, IssueForm(call.repo, call.items[i].title, call.items[i].body, call.items[i].labels),
                  ItemOutcome(call, env.reply));
  }

  lemma OtherLookupsStay(allowed: bool, st: Store, call: BatchCall, i: nat, reply: Option<Issue>, env: RecordEnv, j: nat)
    requires Sound(st) && i < |call.items| && j < |call.items|
    requires var r := RecordEffect(allowed, st, ItemRecord(call, i, reply), env).1; i == j && r.Ok? ==> ItemOutcome(call, reply).GitHubError?
    ensures LookupOk(RecordEffect(allowed, st, ItemRecord(call, i, reply), env).0.calls, SlotOf(call, j)) == LookupOk(st.calls, SlotOf(call, j))
  {
    var (st', r) := RecordEffect(allowed, st, ItemRecord(call, i, reply), env);
    RecordAddsTheRow(allowed, st, ItemRecord(call, i, reply), env);
    SlotsDistinct(call, i, j);
    if r.Ok? { LookupAppend(st.calls, r.value.call, SlotOf(call, j)); }
  }

  lemma OtherIssuesStay(allowed: bool, st: Store, call: BatchCall, i: nat, env: ItemEnv, j: nat)
    requires Sound(st) && i < |call.items| && j < |call.items|
    requires i != j || !Gains(ItemEffect(allowed, st, call, i, env).1, AttemptIn(st, call, i, env))
    ensures IssueIn(ItemEffect(allowed, st, call, i, env).0, call, j) == IssueIn(st, call, j)
  {
    if ReplayEffect(st, SlotOf(call, i), None, env.replay) == Ok(None) {
      var input := ItemRecord(call, i, env.reply);
      RecordKeepsSound(allowed, st, input, env.record);
      OtherLookupsStay(allowed, st, call, i, env.reply, env.record, j);
      IssueStays(st, RecordEffect(allowed, st, input, env.record).0, call, j);
    }
  }

  lemma GainedIssue(allowed: bool, st: Store, call: BatchCall, i: nat, env: ItemEnv)
    requires Sound(st) && i < |call.items| && Gains(ItemEffect(allowed, st, call, i, env).1, AttemptIn(st, call, i, env))
    ensures IssueIn(ItemEffect(allowed, st, call, i, env).0, call, i) == Some(Recorded(call, env.reply))
  {
    RecordedIssue(allowed, st, call, i, env);
  }

  lemma ReplayedIssueReported(allowed: bool, st: Store, call: BatchCall, i: nat, env: ItemEnv)
    requires i < |call.items| && AttemptIn(st, call, i, env) == Replayed && ItemEffect(allowed, st, call, i, env).1.Ok?
    ensures ItemEffect(allowed, st, call, i, env).1.value.issue == IssueIn(st, call, i) && IssueIn(st, call, i).Some?
  {
  }

  /** Item j's issue after the attempts so far. */
  function IssueAfter(st0: Store, call: BatchCall, envs: seq<ItemEnv>, attempts: seq<Attempt>, j: nat): Option<Issue>
    requires |envs| == |call.items| && j < |envs|
  {
    if Succeeded(attempts, j) then Some(Recorded(call, envs[j].reply)) else IssueIn(st0, call, j)
  }

  ghost predicate IssuesTracked(st0: Store, call: BatchCall, envs: seq<ItemEnv>, l: Loop)
    requires Fits(l, call, envs)
  {
    && (forall j | 0 <= j < |envs| :: IssueIn(l.st, call, j) == IssueAfter(st0, call, envs, l.attempts, j))
    && forall j | 0 <= j < |l.attempts| && l.attempts[j] == Replayed :: l.out[j].issue == IssueIn(st0, call, j) && l.out[j].issue.Some?
  }

  lemma IssueTurn(allowed: bool, st0: Store, call: BatchCall, envs: seq<ItemEnv>, l: Loop, j: nat)
    requires Fits(l, call, envs) && Sound(l.st) && |l.attempts| < |envs| && j < |envs|
    requires IssueIn(l.st, call, j) == IssueAfter(st0, call, envs, l.attempts, j)
    ensures var (st, r) := ItemEffect(allowed, l.st, call, |l.attempts|, envs[|l.attempts|]);
            var attempts := if r.Ok? then l.attempts + [Attempted(l, call, envs)] else l.attempts;
            IssueIn(st, call, j) == IssueAfter(st0, call, envs, attempts, j)
  {
    var i := |l.attempts|;
    if i == j && Gains(ItemEffect(allowed, l.st, call, i, envs[i]).1, AttemptIn(l.st, call, i, envs[i])) {
      GainedIssue(allowed, l.st, call, i, envs[i]);
    } else {
      OtherIssuesStay(allowed, l.st, call, i, envs[i], j);
    }
  }

  lemma TurnTracksIssues(allowed: bool, st0: Store, call: BatchCall, envs: seq<ItemEnv>, l: Loop)
    requires Fits(l, call, envs) && Sound(l.st) && IssuesTracked(st0, call, envs, l) && |l.attempts| < |envs|
    ensures var (st, r) := ItemEffect(allowed, l.st, call, |l.attempts|, envs[|l.attempts|]);
            IssuesTracked(st0, call, envs, if r.Ok? then AfterTurn(allowed, call, envs, l) else l.(st := st))
  {
    var i := |l.attempts|;
    var (st, r) := ItemEffect(allowed, l.st, call, i, envs[i]);
    forall j | 0 <= j < |envs|
      ensures var attempts := if r.Ok? then l.attempts + [Attempted(l, call, envs)] else l.attempts;
              IssueIn(st, call, j) == IssueAfter(st0, call, envs, attempts, j)
    {
      IssueTurn(allowed, st0, call, envs, l, j);
    }
    if r.Ok? && Attempted(l, call, envs) == Replayed { ReplayedIssueReported(allowed, l.st, call, i, envs[i]); }
  }

  lemma {:induction false} LoopTracksIssues(allowed: bool, st0: Store, call: BatchCall, envs: seq<ItemEnv>, l: Loop)
    requires Fits(l, call, envs) && Sound(l.st) && IssuesTracked(st0, call, envs, l)
    ensures var l' := LoopFrom(allowed, call, envs, l).0; Fits(l', call, envs) && IssuesTracked(st0, call, envs, l')
    decreases |envs| - |l.attempts|
  {
    var i := |l.attempts|;
    if i < |envs| {
      TurnTracksIssues(allowed, st0, call, envs, l);
      if ItemEffect(allowed, l.st, call, i, envs[i]).1.Ok? {
        ItemKeepsSound(allowed, l.st, call, i, envs[i]);
        LoopTracksIssues(allowed, st0, call, envs, AfterTurn(allowed, call, envs, l));
      }
    }
  }

  /** Main result: in any call, completed or broken off, a replayed item reports the issue its ok row's
      document decodes to; and afterwards an item that succeeded afresh has the issue created for it to
      replay over MCP, an empty one over HTTP or after a dry run, every other item what it had. */
  lemma BatchReportsIssues(allowed: bool, st: Store, created: seq<Creation>, call: BatchCall, envs: seq<ItemEnv>)
    requires Sound(st) && |envs| == |call.items|
    ensures var l := LoopFrom(allowed, call, envs, Start(st, call, created)).0;
            Fits(l, call, envs) && IssuesTracked(st, call, envs, l)
  {
    LoopTracksIssues(allowed, st, call, envs, Start(st, call, created));
  }

  /** Main result about a call that completes: `Completed`, and a replayed item reports the issue its ok row's
      document decodes to. */
  lemma BatchCompletes(allowed: bool, st: Store, created: seq<Creation>, call: BatchCall, envs: seq<ItemEnv>)
    requires Sound(st) && |envs| == |call.items|
    requires LoopFrom(allowed, call, envs, Start(st, call, created)).1.Ok?
    ensures var (l, r) := LoopFrom(allowed, call, envs, Start(st, call, created));
            && Fits(l, call, envs)
            && Completed(st, created, call, envs, l, ResponseOf(call, |l.attempts|, l.replayedCount, l.errCount, r.value, l.out))
    ensures var (l, r) := LoopFrom(allowed, call, envs, Start(st, call, created));
            var results := ResponseOf(call, |l.attempts|, l.replayedCount, l.errCount, r.value, l.out).results;
            forall k | 0 <= k < |l.attempts| && l.attempts[k] == Replayed :: results[k].issue == IssueIn(st, call, k) && results[k].issue.Some?
  {
    var start := Start(st, call, created);
    var (l, r) := LoopFrom(allowed, call, envs, start);
    BatchReportsIssues(allowed, st, created, call, envs);
    BatchPasses(allowed, st, created, call, envs);
    LoopStops(allowed, call, envs, start);
    LoopTallies(allowed, call, envs, start);
    TallyAnswers(call, envs, l, r.value);
    LoopCreates(allowed, call, envs, start, created);
  }

  /** Main result about a call that breaks off. */
  lemma BatchBreaksOff(allowed: bool, st: Store, created: seq<Creation>, call: BatchCall, envs: seq<ItemEnv>)
    requires Sound(st) && |envs| == |call.items|
    requires LoopFrom(allowed, call, envs, Start(st, call, created)).1.Err?
    ensures var (l, r) := LoopFrom(allowed, call, envs, Start(st, call, created));
            Fits(l, call, envs) && BrokeOff(st, created, call, envs, l, r.error)
  {
    var start := Start(st, call, created);
    var (l, r) := LoopFrom(allowed, call, envs, start);
    LoopProgresses(allowed, st, call, envs, start);
    RowsOfProgress(st, l.st, call, envs, l.attempts);
    LoopStops(allowed, call, envs, start);
    LoopCreates(allowed, call, envs, start, created);
  }

  /** One turn of the loop, field by field. */
  lemma TurnOfTheLoop(allowed: bool, call: BatchCall, envs: seq<ItemEnv>, l: Loop, st: Store, item: Result<BatchResult, BatchError>,
                      created: seq<Creation>)
    requires Fits(l, call, envs) && |l.attempts| < |envs|
    requires ItemEffect(allowed, l.st, call, |l.attempts|, envs[|l.attempts|]) == (st, item)
    requires created == l.created + CreatedBy(l.st, call, |l.attempts|, envs[|l.attempts|])
    ensures item.Err? ==> LoopFrom(allowed, call, envs, l) == (l.(st := st, created := created), Err(item.error))
    ensures item.Ok? ==>
              var i, next := |l.attempts|, AfterTurn(allowed, call, envs, l);
              && next.st == st && next.created == created && next.out == l.out[i := item.value] && |next.attempts| == i + 1
              && next.replayedCount == (if item.value.replayed then l.replayedCount + 1 else l.replayedCount)
              && next.errCount == (if !item.value.replayed && item.value.error then l.errCount + 1 else l.errCount)
              && LoopFrom(allowed, call, envs, l)
                 == if !item.value.replayed && item.value.error && call.strict then (next, Ok(Some(i))) else LoopFrom(allowed, call, envs, next)
  {
  }

  function GuardedAll(a: AuditService, envs: seq<ItemEnv>): (guarded: seq<ItemEnv>)
    ensures |guarded| == |envs|
  {
    seq(|envs|, i requires 0 <= i < |envs| => Guarded(a, envs[i]))
  }

  /** The loop of the handler: it leaves the storage, GitHub and its variables just as `LoopFrom` says. */
  method ProcessItems(a: AuditService, gh: GitHub, call: BatchCall, envs: seq<ItemEnv>)
    returns (r: Result<Option<nat>, BatchError>, processed: nat, replayedCount: nat, errCount: nat, out: seq<BatchResult>,
             ghost final: Loop)
    requires |envs| == |call.items|
    modifies a, gh
    ensures old(a.Valid()) ==> a.Valid()
    ensures Fits(final, call, envs) && processed == |final.attempts|
    ensures final.st == a.View() && final.created == gh.created && final.out == out
    ensures final.replayedCount == replayedCount && final.errCount == errCount
    ensures (final, r)
            == LoopFrom(a.policy.CheckTool(IssueKey.BATCH_TOOL), call, GuardedAll(a, envs), Start(old(a.View()), call, old(gh.created)))
  {
    out := seq(|call.items|, _ => BatchResult(0, None, false, false));
    replayedCount, errCount, processed := 0, 0, 0;
    final := Start(a.View(), call, gh.created);
    ghost var allowed, guarded, start := a.policy.CheckTool(IssueKey.BATCH_TOOL), GuardedAll(a, envs), final;
    for i := 0 to |call.items|
      invariant old(a.Valid()) ==> a.Valid()
      invariant Fits(final, call, guarded) && |final.attempts| == i == processed
      invariant final.st == a.View() && final.created == gh.created && final.out == out
      invariant final.replayedCount == replayedCount && final.errCount == errCount
      invariant LoopFrom(allowed, call, guarded, final) == LoopFrom(allowed, call, guarded, start)
    {
      var item := ProcessItem(a, gh, call, i, envs[i]);
      TurnOfTheLoop(allowed, call, guarded, final, a.View(), item, gh.created);
      if item.Err? {
        final := final.(st := a.View(), created := gh.created);
        r := Err(item.error);
        return;
      }
      final := AfterTurn(allowed, call, guarded, final);
      processed := i + 1;
      out := out[i := item.value];
      if item.value.replayed {
        replayedCount := replayedCount + 1;
      } else if item.value.error {
        errCount := errCount + 1;
        if call.strict {
          r := Ok(Some(i));
          return;
        }
      }
    }
    r := Ok(None);
  }

  /** The handler: a call for an unknown run, with a tool that is not allowed, or with no or more than 50 items
      is refused, with the first of these errors, and changes nothing; any other runs the loop and reports its
      variables. */
  method HandleBatch(a: AuditService, gh: GitHub, call: BatchCall, envs: seq<ItemEnv>)
    returns (r: Result<Response, BatchError>, ghost final: Loop)
    requires |envs| == |call.items|
    modifies a, gh
    ensures old(a.Valid()) ==> a.Valid()
    ensures final.st == a.View() && final.created == gh.created && Fits(final, call, envs)
    ensures call.runID !in old(a.runs) ==> r == Err(NoSuchRun)
    ensures call.runID in old(a.runs) && "github.issues.batch_create" !in a.policy.allowedTools ==> r == Err(ToolForbidden)
    ensures call.runID in old(a.runs) && "github.issues.batch_create" in a.policy.allowedTools ==>
              (|call.items| == 0 ==> r == Err(EmptyBatch)) && (|call.items| > 50 ==> r == Err(TooMany))
    ensures if call.runID in old(a.runs) && "github.issues.batch_create" in a.policy.allowedTools && 1 <= |call.items| <= 50 then
              var (l, outcome) := LoopFrom(true, call, GuardedAll(a, envs), Start(old(a.View()), call, old(gh.created)));
              && final == l
              && r == match outcome
                      case Err(error) => Err(error)
                      case Ok(stop) => Ok(ResponseOf(call, |l.attempts|, l.replayedCount, l.errCount, stop, l.out))
            else a.View() == old(a.View()) && gh.created == old(gh.created)
  {
    if call.runID !in a.runs {
      return Err(NoSuchRun), Start(a.View(), call, gh.created);
    }
    if !a.policy.CheckTool(IssueKey.BATCH_TOOL) {
      return Err(ToolForbidden), Start(a.View(), call, gh.created);
    }
    if |call.items| == 0 {
      return Err(EmptyBatch), Start(a.View(), call, gh.created);
    }
    if |call.items| > MAX_BATCH_SIZE {
      return Err(TooMany), Start(a.View(), call, gh.created);
    }
    var stop, processed, replayedCount, errCount, out;
    stop, processed, replayedCount, errCount, out, final := ProcessItems(a, gh, call, envs);
    if stop.Err? {
      return Err(stop.error), final;
    }
    return Ok(ResponseOf(call, processed, replayedCount, errCount, stop.value, out)), final;
  }

  // ---------- retries on the storage ----------

  /** One completed call of a retry sequence: the transport and mode it came with, the storage before and the
      loop variables after it. */
  datatype Visit = Visit(before: Store, transport: Transport, strict: bool, envs: seq<ItemEnv>, after: Loop)

  /** The batch as this visit called it. */
  function CallOf(call: BatchCall, v: Visit): BatchCall { call.(transport := v.transport, strict := v.strict) }

  ghost predicate VisitRuns(allowed: bool, call: BatchCall, v: Visit) {
    && |v.envs| == |call.items|
    && LoopFrom(allowed, CallOf(call, v), v.envs, Start(v.before, call, [])).0 == v.after
    && LoopFrom(allowed, CallOf(call, v), v.envs, Start(v.before, call, [])).1.Ok?
  }

  /** Calls of one batch, over whatever transports, not dry runs, one after the other, none of which met a
      storage fault. */
  ghost predicate RetrySequence(allowed: bool, call: BatchCall, visits: seq<Visit>) {
    && !call.dryRun && visits != [] && Sound(visits[0].before)
    && (forall k | 0 <= k < |visits| :: VisitRuns(allowed, call, visits[k]))
    && forall k | 0 < k < |visits| :: visits[k].before == visits[k - 1].after.st
  }

  function TryOf(call: BatchCall, v: Visit): Try
    requires |v.envs| == |call.items|
  {
    Try(AcceptedIn(call, v.envs), v.strict, v.after.attempts)
  }

  ghost function TriesOf(allowed: bool, call: BatchCall, visits: seq<Visit>): (tries: seq<Try>)
    requires forall k | 0 <= k < |visits| :: VisitRuns(allowed, call, visits[k])
    ensures |tries| == |visits| && forall k | 0 <= k < |visits| :: VisitRuns(allowed, call, visits[k]) && tries[k] == TryOf(call, visits[k])
  {
    seq(|visits|, k requires 0 <= k < |visits| && VisitRuns(allowed, call, visits[k]) => TryOf(call, visits[k]))
  }

  /** Keys, and so rows and answers, depend neither on the transport nor on the mode. */
  lemma CallIsNoMatter(st: Store, call: BatchCall, v: Visit)
    requires |v.envs| == |call.items|
    ensures DoneIn(st, call) == DoneIn(st, CallOf(call, v))
    ensures AcceptedIn(call, v.envs) == AcceptedIn(CallOf(call, v), v.envs)
  {
    assert forall i | 0 <= i < |call.items| :: SlotOf(call, i) == SlotOf(CallOf(call, v), i);
  }

  lemma VisitPasses(allowed: bool, call: BatchCall, v: Visit)
    requires Sound(v.before) && VisitRuns(allowed, call, v) && !call.dryRun
    ensures Sound(v.after.st)
    ensures Pass(DoneIn(v.before, call), AcceptedIn(call, v.envs), false, v.strict, v.after.attempts)
    ensures DoneIn(v.after.st, call) == DoneAfter(DoneIn(v.before, call), v.after.attempts)
  {
    var run := CallOf(call, v);
    BatchPasses(allowed, v.before, [], run, v.envs);
    BatchKeepsSound(allowed, v.before, [], run, v.envs);
    CallIsNoMatter(v.before, call, v);
    CallIsNoMatter(v.after.st, call, v);
  }

  lemma {:induction false} VisitsAt(allowed: bool, call: BatchCall, visits: seq<Visit>, k: nat)
    requires RetrySequence(allowed, call, visits) && k < |visits|
    ensures Sound(visits[k].before)
    ensures DoneIn(visits[k].before, call) == DoneAt(DoneIn(visits[0].before, call), TriesOf(allowed, call, visits), k)
    decreases k
  {
    if k > 0 {
      VisitsAt(allowed, call, visits, k - 1);
      VisitPasses(allowed, call, visits[k - 1]);
    }
  }

  /** Main result: retries of the handler on real storage, over either transport, are retries in the sense
      above, so all that holds of those holds of them; after the last call item i has exactly one ok row if
      it is done and none otherwise. */
  lemma RetriesOnTheStorage(allowed: bool, call: BatchCall, visits: seq<Visit>, i: nat)
    requires RetrySequence(allowed, call, visits) && i < |call.items|
    ensures var done, tries, last := DoneIn(visits[0].before, call), TriesOf(allowed, call, visits), visits[|visits| - 1].after.st;
            && Retries(done, tries)
            && OkRows(last.calls, SlotOf(call, i)) == (if DoneAt(done, tries, |tries|)[i] then 1 else 0)
            && Creations(tries, |tries|, i) == OkRows(last.calls, SlotOf(call, i)) - OkRows(visits[0].before.calls, SlotOf(call, i))
  {
    var done, tries, n := DoneIn(visits[0].before, call), TriesOf(allowed, call, visits), |visits|;
    forall k | 0 <= k < n ensures PassAt(done, tries, k) {
      VisitsAt(allowed, call, visits, k);
      VisitPasses(allowed, call, visits[k]);
    }
    VisitsAt(allowed, call, visits, n - 1);
    VisitPasses(allowed, call, visits[n - 1]);
    OneOkRowEach(visits[n - 1].after.st, call, i);
    OneOkRowEach(visits[0].before, call, i);
    CreatedAtMostOnce(done, tries, n, i);
  }

  // ---------- what retries hand back ----------

  lemma VisitIssues(allowed: bool, call: BatchCall, v: Visit, i: nat)
    requires Sound(v.before) && VisitRuns(allowed, call, v) && !call.dryRun && i < |call.items|
    ensures Fits(v.after, call, v.envs)
    ensures IssueIn(v.after.st, call, i)
            == if i < |v.after.attempts| && v.after.attempts[i] == Fresh then Some(Recorded(CallOf(call, v), v.envs[i].reply)) else IssueIn(v.before, call, i)
    ensures i < |v.after.attempts| && v.after.attempts[i] == Replayed ==> v.after.out[i].issue == IssueIn(v.before, call, i)
    ensures i < |v.after.attempts| ==> v.after.attempts[i] == AttemptIn(v.before, call, i, v.envs[i])
  {
    var run := CallOf(call, v);
    BatchReportsIssues(allowed, v.before, [], run, v.envs);
    VisitPasses(allowed, call, v);
    assert SlotOf(run, i) == SlotOf(call, i);
    assert IssueIn(v.after.st, run, i) == IssueAfter(v.before, run, v.envs, v.after.attempts, i);
  }

  /** A later call leaves an item's issue to be replayed as it was. */
  lemma IssueKept(allowed: bool, call: BatchCall, v: Visit, i: nat)
    requires Sound(v.before) && VisitRuns(allowed, call, v) && !call.dryRun && i < |call.items| && IssueIn(v.before, call, i).Some?
    ensures IssueIn(v.after.st, call, i) == IssueIn(v.before, call, i)
  {
    assert HasOkRow(v.before, call, i);
    VisitIssues(allowed, call, v, i);
  }

  lemma {:induction false} IssueSince(allowed: bool, call: BatchCall, visits: seq<Visit>, j: nat, m: nat, i: nat)
    requires RetrySequence(allowed, call, visits) && j < m < |visits| && i < |call.items|
    requires i < |visits[j].after.attempts| && visits[j].after.attempts[i] == Fresh
    ensures visits[j].envs[i].reply.Some? && IssueIn(visits[m].before, call, i) == Some(Recorded(CallOf(call, visits[j]), visits[j].envs[i].reply))
    decreases m
  {
    VisitsAt(allowed, call, visits, m - 1);
    if j == m - 1 {
      VisitIssues(allowed, call, visits[j], i);
    } else {
      IssueSince(allowed, call, visits, j, m - 1, i);
      IssueKept(allowed, call, visits[m - 1], i);
    }
  }

  /** Main result: what a retry hands back. An item created in one call and processed in a later one is
      replayed there, whichever transports the two came over, and the creating one decides what it reports:
      over MCP the very issue that was created, over HTTP an empty one. */
  lemma RetryReportsTheIssue(allowed: bool, call: BatchCall, visits: seq<Visit>, j: nat, k: nat, i: nat)
    requires RetrySequence(allowed, call, visits) && j < k < |visits| && i < |call.items|
    requires i < |visits[j].after.attempts| && visits[j].after.attempts[i] == Fresh && i < |visits[k].after.attempts|
    ensures |visits[k].after.out| == |call.items| && visits[j].envs[i].reply.Some?
    ensures visits[k].after.attempts[i] == Replayed
    ensures visits[k].after.out[i].issue == Some(if visits[j].transport == Mcp then visits[j].envs[i].reply.value else ZERO_ISSUE)
  {
    IssueSince(allowed, call, visits, j, k, i);
    VisitsAt(allowed, call, visits, k);
    VisitIssues(allowed, call, visits[k], i);
    assert HasOkRow(visits[k].before, call, i);
  }
}

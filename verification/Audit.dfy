/** The audit service: `Save` and `Record` change files, tables and counters one write at a time, any
    write may fail, and no transaction surrounds them; the replay lookups only read. */
module Audit {
  import opened Wrappers
  import opened Hash
  import opened IssueExchange
  import opened Store
  import ArtifactPath
  import Paths
  import PathPolicy
  import Telemetry
  import Text

  /** Something to be saved. */
  datatype Doc = Doc(name: string, contentType: string, bytes: string)

  /** What the file system and the database do to one save; a failing write leaves `partial` behind. */
  datatype SaveEnv = SaveEnv(dirOk: bool, createOk: bool, writeOk: bool, partial: string, rowOk: bool, removeOk: bool)

  const SMOOTH := SaveEnv(true, true, true, "", true, true)

  predicate Smooth(e: SaveEnv) { e.dirOk && e.createOk && e.writeOk && e.rowOk }

  /** The documents are `None` when the value at hand cannot be encoded. */
  datatype RecordInput = RecordInput(runID: string, toolName: string, key: Option<Key>, request: Option<string>,
                                     response: Option<string>, failed: bool, extras: seq<Doc>)

  /** What happens to the saves, in order (smooth past the end of the list), and to the row insert. */
  datatype RecordEnv = RecordEnv(saves: seq<SaveEnv>, insertOk: bool)

  datatype Saved = Saved(request: Id, response: Id, extras: seq<Id>)
  datatype Recorded = Recorded(call: ToolCall, extras: seq<Id>)
  datatype RecordError = Forbidden | Unmarshallable | SaveFailed | InsertFailed
  datatype ReplayError = LookupFailed | ReadFailed | DecodeFailed | KeyConflict
  datatype Replay = Replay(call: ToolCall, issue: Issue)

  /** What happens to the queries and file reads of one replay lookup. */
  datatype ReplayEnv = ReplayEnv(lookupOk: bool, readOk: bool)

  function EnvAt(env: RecordEnv, k: nat): SaveEnv {
    if k < |env.saves| then env.saves[k] else SMOOTH
  }

  function RowOf(runID: string, doc: Doc): ArtifactRow {
    ArtifactRow(runID, doc.name, Sha256(doc.bytes), |doc.bytes|, doc.contentType)
  }

  function RequestDoc(toolName: string, text: string): Doc { Doc(toolName + ".request.json", "application/json", text) }
  function ResponseDoc(toolName: string, text: string): Doc { Doc(toolName + ".response.json", "application/json", text) }

  /** The document is there: its row describes it and its file holds its bytes. */
  ghost predicate Stored(st: Store, id: Id, runID: string, doc: Doc) {
    && id in st.artifacts && st.artifacts[id] == RowOf(runID, doc)
    && FileName(runID, id) in st.files && st.files[FileName(runID, id)] == doc.bytes
  }

  lemma StoredStays(st: Store, st': Store, id: Id, runID: string, doc: Doc)
    requires Extends(st, st') && Stored(st, id, runID, doc)
    ensures Stored(st', id, runID, doc)
  {
    assert Content(st', id) == Content(st, id);
  }

  /** Would the unique index reject this row? */
  predicate Duplicate(st: Store, input: RecordInput) {
    && !input.failed && input.key.Some?
    && LookupOk(st.calls, Slot(input.runID, input.toolName, input.key.value)).Some?
  }

  // ---------- what a save does to the storage ----------

  /** A failed write is followed by an attempt to remove the file. */
  function Undo(st: Store, name: FileName, env: SaveEnv): Store {
    if env.removeOk then RemoveFile(st, name) else st
  }

  function SaveEffect(st: Store, runID: string, doc: Doc, env: SaveEnv): (Store, Option<Id>) {
    var id, name := st.nextID, FileName(runID, st.nextID);
    if !env.dirOk || !env.createOk then (DrawID(st), None)
    else
      var created := PutFile(DrawID(st), name, "");
      if !env.writeOk then (Undo(PutFile(created, name, env.partial), name, env), None)
      else
        var written := PutFile(created, name, doc.bytes);
        if !env.rowOk || !CanInsertArtifact(written, id, RowOf(runID, doc)) then (Undo(written, name, env), None)
        else (InsertArtifact(written, id, RowOf(runID, doc)), Some(id))
  }

  lemma PutTwiceKeepsSound(st: Store, name: FileName, first: string, second: string)
    requires Sound(st) && name.id == st.nextID
    ensures name !in st.files
    ensures var st' := PutFile(PutFile(DrawID(st), name, first), name, second); Sound(st') && Extends(st, st')
  {
    var drawn := DrawID(st);
    var st' := PutFile(PutFile(drawn, name, first), name, second);
    DrawIDKeepsBacked(st);
    FileChangeKeepsBacked(drawn, st', name.id);
    ExtendsTransitive(st, drawn, st');
  }

  lemma DrawnIdentifiers(st: Store)
    requires Sound(st)
    ensures forall id | id in st.artifacts :: id < st.nextID
  {
    forall id | id in st.artifacts ensures id < st.nextID { assert ArtifactBacked(st, id); }
  }

  lemma UndoKeepsSound(st: Store, written: Store, name: FileName, env: SaveEnv)
    requires Sound(st) && Sound(written) && Extends(st, written) && name.id !in written.artifacts
    ensures Sound(Undo(written, name, env)) && Extends(st, Undo(written, name, env))
  {
    if env.removeOk {
      RemoveFileKeepsBacked(written, name);
      ExtendsTransitive(st, written, RemoveFile(written, name));
    }
  }

  /** A save works exactly when no step fails and the run exists; then the document is stored. Either
      way the storage stays sound and nothing in it changes. */
  lemma SaveOutcome(st: Store, runID: string, doc: Doc, env: SaveEnv)
    requires Sound(st)
    ensures var (st', saved) := SaveEffect(st, runID, doc, env);
            && Sound(st') && Extends(st, st') && st'.calls == st.calls && st'.nextID == st.nextID + 1
            && saved == (if Smooth(env) && runID in st.runs then Some(st.nextID) else None)
            && (saved.Some? ==> Stored(st', st.nextID, runID, doc))
            && (saved.None? ==> st'.artifacts == st.artifacts)
  {
    var id, name := st.nextID, FileName(runID, st.nextID);
    DrawIDKeepsBacked(st);
    if env.dirOk && env.createOk {
      var bytes := if env.writeOk then doc.bytes else env.partial;
      var written := PutFile(PutFile(DrawID(st), name, ""), name, bytes);
      PutTwiceKeepsSound(st, name, "", bytes);
      DrawnIdentifiers(st);
      if env.writeOk && env.rowOk && runID in st.runs {
        InsertArtifactKeepsBacked(written, id, RowOf(runID, doc));
        ExtendsTransitive(st, written, InsertArtifact(written, id, RowOf(runID, doc)));
      } else {
        UndoKeepsSound(st, written, name, env);
      }
    }
  }

  /** A failed save whose clean-up works leaves no file behind. */
  lemma FailedSaveLeavesNoFile(st: Store, runID: string, doc: Doc, env: SaveEnv)
    requires Sound(st) && env.removeOk && SaveEffect(st, runID, doc, env).1 == None
    ensures SaveEffect(st, runID, doc, env).0 == DrawID(st)
  {
    var name := FileName(runID, st.nextID);
    assert name !in st.files;
    if env.dirOk && env.createOk {
      var bytes := if env.writeOk then doc.bytes else env.partial;
      assert st.files[name := ""][name := bytes] - {name} == st.files;
    }
  }

  // ---------- what `Record` does to the storage ----------

  function DocCount(input: RecordInput): nat { |input.extras| + 2 }

  /** The documents in saving order: request, response, extras. */
  function DocAt(input: RecordInput, k: nat): Option<Doc>
    requires k < DocCount(input)
  {
    if k == 0 then (if input.request.Some? then Some(RequestDoc(input.toolName, input.request.value)) else None)
    else if k == 1 then (if input.response.Some? then Some(ResponseDoc(input.toolName, input.response.value)) else None)
    else Some(input.extras[k - 2])
  }

  /** Saving the documents from the k-th on, up to the first that fails. */
  function SaveFrom(st: Store, input: RecordInput, env: RecordEnv, k: nat): (Store, Option<RecordError>)
    requires k <= DocCount(input)
    decreases DocCount(input) - k
  {
    if k == DocCount(input) then (st, None)
    else if DocAt(input, k).None? then (st, Some(Unmarshallable))
    else
      var (st', saved) := SaveEffect(st, input.runID, DocAt(input, k).value, EnvAt(env, k));
      if saved.None? then (st', Some(SaveFailed)) else SaveFrom(st', input, env, k + 1)
  }

  function CallFor(first: Id, id: Id, input: RecordInput): ToolCall
    requires input.request.Some? && input.response.Some?
  {
    ToolCall(id, input.runID, input.toolName, input.key, if input.failed then StatusFail else StatusOk,
             first, first + 1, Sha256(input.request.value + input.response.value))
  }

  function ExtraIDs(first: Id, n: nat): seq<Id> {
    seq(n, k requires 0 <= k < n => first + 2 + k)
  }

  function RecordEffect(allowed: bool, st: Store, input: RecordInput, env: RecordEnv): (Store, Result<Recorded, RecordError>) {
    if !allowed then (st, Err(Forbidden))
    else
      var (saved, error) := SaveFrom(st, input, env, 0);
      if error.Some? then (saved, Err(error.value))
      else if input.request.None? || input.response.None? then (saved, Err(Unmarshallable))
      else
        var call := CallFor(st.nextID, saved.nextID, input);
        if !env.insertOk || !CanInsertCall(DrawID(saved), call) then (DrawID(saved), Err(InsertFailed))
        else (InsertCall(DrawID(saved), call), Ok(Recorded(call, ExtraIDs(st.nextID, |input.extras|))))
  }

  // ---------- what that means ----------

  ghost predicate DocStored(st: Store, first: Id, input: RecordInput, k: nat)
    requires k < DocCount(input)
  {
    DocAt(input, k).Some? && Stored(st, first + k, input.runID, DocAt(input, k).value)
  }

  predicate Saveable(runs: set<string>, input: RecordInput, env: RecordEnv, k: nat)
    requires k < DocCount(input)
  {
    DocAt(input, k).Some? && Smooth(EnvAt(env, k)) && input.runID in runs
  }

  ghost predicate AllSaveable(runs: set<string>, input: RecordInput, env: RecordEnv, k: nat) {
    forall j | k <= j < DocCount(input) :: Saveable(runs, input, env, j)
  }

  lemma AllSaveableSplit(runs: set<string>, input: RecordInput, env: RecordEnv, k: nat)
    requires k < DocCount(input)
    ensures AllSaveable(runs, input, env, k) <==> Saveable(runs, input, env, k) && AllSaveable(runs, input, env, k + 1)
  {
  }

  lemma {:induction false} SaveFromKeepsSound(st: Store, input: RecordInput, env: RecordEnv, k: nat)
    requires Sound(st) && k <= DocCount(input)
    ensures Sound(SaveFrom(st, input, env, k).0) && Extends(st, SaveFrom(st, input, env, k).0)
    ensures SaveFrom(st, input, env, k).0.calls == st.calls
    decreases DocCount(input) - k
  {
    if k < DocCount(input) && DocAt(input, k).Some? {
      SaveOutcome(st, input.runID, DocAt(input, k).value, EnvAt(env, k));
      var next := SaveEffect(st, input.runID, DocAt(input, k).value, EnvAt(env, k));
      if next.1.Some? {
        SaveFromKeepsSound(next.0, input, env, k + 1);
        ExtendsTransitive(st, next.0, SaveFrom(next.0, input, env, k + 1).0);
      }
    }
  }

  function AfterSave(st: Store, input: RecordInput, env: RecordEnv, k: nat): Store
    requires k < DocCount(input)
  {
    if DocAt(input, k).None? then st else SaveEffect(st, input.runID, DocAt(input, k).value, EnvAt(env, k)).0
  }

  lemma SaveFromNext(st: Store, input: RecordInput, env: RecordEnv, k: nat)
    requires Sound(st) && k < DocCount(input)
    ensures Sound(AfterSave(st, input, env, k)) && AfterSave(st, input, env, k).runs == st.runs
    ensures SaveFrom(st, input, env, k).1.None?
            <==> Saveable(st.runs, input, env, k) && SaveFrom(AfterSave(st, input, env, k), input, env, k + 1).1.None?
  {
    if DocAt(input, k).Some? { SaveOutcome(st, input.runID, DocAt(input, k).value, EnvAt(env, k)); }
  }

  lemma {:induction false} SaveFromSucceeds(st: Store, input: RecordInput, env: RecordEnv, k: nat)
    requires Sound(st) && k <= DocCount(input)
    ensures SaveFrom(st, input, env, k).1.None? <==> AllSaveable(st.runs, input, env, k)
    decreases DocCount(input) - k
  {
    if k < DocCount(input) {
      SaveFromNext(st, input, env, k);
      SaveFromSucceeds(AfterSave(st, input, env, k), input, env, k + 1);
      AllSaveableSplit(st.runs, input, env, k);
    }
  }

  lemma SaveFromStep(st: Store, input: RecordInput, env: RecordEnv, k: nat)
    requires Sound(st) && k < DocCount(input) && Saveable(st.runs, input, env, k)
    ensures var next := AfterSave(st, input, env, k);
            Sound(next) && next.nextID == st.nextID + 1 && SaveFrom(st, input, env, k) == SaveFrom(next, input, env, k + 1)
    ensures 0 <= st.nextID - k ==> DocStored(SaveFrom(st, input, env, k).0, st.nextID - k, input, k)
  {
    var doc := DocAt(input, k).value;
    var next := AfterSave(st, input, env, k);
    SaveOutcome(st, input.runID, doc, EnvAt(env, k));
    SaveFromKeepsSound(next, input, env, k + 1);
    StoredStays(next, SaveFrom(next, input, env, k + 1).0, st.nextID, input.runID, doc);
  }

  lemma {:induction false} SaveFromStores(st: Store, input: RecordInput, env: RecordEnv, first: Id, k: nat, final: Store)
    requires Sound(st) && k <= DocCount(input) && st.nextID == first + k && SaveFrom(st, input, env, k) == (final, None)
    ensures final.nextID == first + DocCount(input)
    ensures forall j | k <= j < DocCount(input) :: DocStored(final, first, input, j)
    decreases DocCount(input) - k
  {
    if k < DocCount(input) {
      SaveFromNext(st, input, env, k);
      SaveFromStep(st, input, env, k);
      SaveFromStores(AfterSave(st, input, env, k), input, env, first, k + 1, final);
    }
  }

  /** When `Record` is to succeed, said about its inputs alone. */
  ghost predicate Acceptable(allowed: bool, st: Store, input: RecordInput, env: RecordEnv) {
    && allowed && AllSaveable(st.runs, input, env, 0)
    && env.insertOk && !Duplicate(st, input)
  }

  lemma RowCases(st: Store, saved: Store, input: RecordInput)
    requires Sound(st) && Sound(saved) && Extends(st, saved) && saved.calls == st.calls && input.runID in st.runs
    requires DocStored(saved, st.nextID, input, 0) && DocStored(saved, st.nextID, input, 1)
    ensures var drawn, call := DrawID(saved), CallFor(st.nextID, saved.nextID, input);
            && CanInsertCall(drawn, call) == !Duplicate(st, input)
            && (CanInsertCall(drawn, call) ==> Sound(InsertCall(drawn, call)) && Extends(st, InsertCall(drawn, call)))
  {
    var drawn, call := DrawID(saved), CallFor(st.nextID, saved.nextID, input);
    DrawIDKeepsBacked(saved);
    ExtendsTransitive(st, saved, drawn);
    if CanInsertCall(drawn, call) {
      StoredStays(saved, drawn, call.request, input.runID, DocAt(input, 0).value);
      StoredStays(saved, drawn, call.response, input.runID, DocAt(input, 1).value);
      InsertCallKeepsBacked(drawn, call);
      ExtendsTransitive(st, drawn, InsertCall(drawn, call));
    }
  }

  lemma RecordAfterSaves(st: Store, input: RecordInput, env: RecordEnv)
    requires Sound(st) && SaveFrom(st, input, env, 0).1.None?
    ensures var saved := SaveFrom(st, input, env, 0).0;
            && input.request.Some? && input.response.Some? && input.runID in st.runs
            && saved.nextID == st.nextID + DocCount(input)
            && DocStored(saved, st.nextID, input, 0) && DocStored(saved, st.nextID, input, 1)
            && Sound(saved) && Extends(st, saved) && saved.calls == st.calls
  {
    SaveFromSucceeds(st, input, env, 0);
    SaveFromStores(st, input, env, st.nextID, 0, SaveFrom(st, input, env, 0).0);
    SaveFromKeepsSound(st, input, env, 0);
    assert Saveable(st.runs, input, env, 0) && Saveable(st.runs, input, env, 1);
  }

  /** Main result about `Record`, whatever fails: the storage stays sound and append-only. */
  lemma RecordKeepsSound(allowed: bool, st: Store, input: RecordInput, env: RecordEnv)
    requires Sound(st)
    ensures Sound(RecordEffect(allowed, st, input, env).0) && Extends(st, RecordEffect(allowed, st, input, env).0)
  {
    SaveFromKeepsSound(st, input, env, 0);
    if SaveFrom(st, input, env, 0).1.None? {
      var saved := SaveFrom(st, input, env, 0).0;
      RecordAfterSaves(st, input, env);
      RowCases(st, saved, input);
      DrawIDKeepsBacked(saved);
      ExtendsTransitive(st, saved, DrawID(saved));
    }
  }

  /** Main result: `Record` succeeds exactly when its inputs are acceptable. */
  lemma RecordIsExact(allowed: bool, st: Store, input: RecordInput, env: RecordEnv)
    requires Sound(st)
    ensures RecordEffect(allowed, st, input, env).1.Ok? <==> Acceptable(allowed, st, input, env)
  {
    SaveFromSucceeds(st, input, env, 0);
    if SaveFrom(st, input, env, 0).1.None? {
      RecordAfterSaves(st, input, env);
      RowCases(st, SaveFrom(st, input, env, 0).0, input);
    }
  }

  /** Main result about a successful `Record`: one more row, carrying its status, key and evidence hash
      and pointing to its two documents; every document it was given is stored under its own identifier;
      and a failed one adds no row. */
  lemma RecordAddsTheRow(allowed: bool, st: Store, input: RecordInput, env: RecordEnv)
    requires Sound(st)
    ensures var (st', r) := RecordEffect(allowed, st, input, env);
            && (r.Err? ==> st'.calls == st.calls)
            && (r.Ok? ==>
                  && st'.calls == st.calls + [r.value.call]
                  && r.value.call == CallFor(st.nextID, st.nextID + DocCount(input), input)
                  && r.value.extras == ExtraIDs(st.nextID, |input.extras|)
                  && forall k | 0 <= k < DocCount(input) :: DocStored(st', st.nextID, input, k))
  {
    var saved := SaveFrom(st, input, env, 0).0;
    var st' := RecordEffect(allowed, st, input, env).0;
    SaveFromKeepsSound(st, input, env, 0);
    if RecordEffect(allowed, st, input, env).1.Ok? {
      SaveFromStores(st, input, env, st.nextID, 0, saved);
      assert st' == saved.(calls := st'.calls, nextID := st'.nextID);
      forall k | 0 <= k < DocCount(input) ensures DocStored(st', st.nextID, input, k) {
        assert DocStored(saved, st.nextID, input, k);
      }
    }
  }

  /** What a recorded call's rows say of its two documents. */
  lemma RowsNameDocuments(allowed: bool, st: Store, input: RecordInput, env: RecordEnv)
    requires Sound(st) && RecordEffect(allowed, st, input, env).1.Ok?
    ensures input.request.Some? && input.response.Some?
    ensures var (st', r) := RecordEffect(allowed, st, input, env);
            && r.value.call.request in st'.artifacts && r.value.call.response in st'.artifacts
            && st'.artifacts[r.value.call.request]
               == ArtifactRow(input.runID, input.toolName + ".request.json", Sha256(input.request.value), |input.request.value|, "application/json")
            && st'.artifacts[r.value.call.response]
               == ArtifactRow(input.runID, input.toolName + ".response.json", Sha256(input.response.value), |input.response.value|, "application/json")
  {
    RecordAddsTheRow(allowed, st, input, env);
    var st' := RecordEffect(allowed, st, input, env).0;
    assert DocStored(st', st.nextID, input, 0) && DocStored(st', st.nextID, input, 1);
  }

  // ---------- what a failed record leaves ----------

  /** The saves end at the first document that cannot be saved; the ones before it stay. */
  lemma {:induction false} FirstFailureStops(st: Store, input: RecordInput, env: RecordEnv, first: Id, k: nat, j: nat, final: Store)
    requires Sound(st) && k <= j < DocCount(input) && st.nextID == first + k && SaveFrom(st, input, env, k).0 == final
    requires forall i | k <= i < j :: Saveable(st.runs, input, env, i)
    ensures forall i | k <= i < j :: DocStored(final, first, input, i)
    decreases j - k
  {
    if k < j {
      SaveFromNext(st, input, env, k);
      SaveFromStep(st, input, env, k);
      FirstFailureStops(AfterSave(st, input, env, k), input, env, first, k + 1, j, final);
    }
  }

  /** Nothing cleans up after an earlier document: when the j-th save is the first to fail, the ones before
      it are orphans, stored with no row that refers to them. */
  lemma SaveFailureLeavesOrphans(st: Store, input: RecordInput, env: RecordEnv, j: nat)
    requires Sound(st) && j < DocCount(input)
    requires (forall i | 0 <= i < j :: Saveable(st.runs, input, env, i)) && !Saveable(st.runs, input, env, j)
    ensures var (st', r) := RecordEffect(true, st, input, env);
            r.Err? && st'.calls == st.calls && forall i | 0 <= i < j :: DocStored(st', st.nextID, input, i)
  {
    SaveFromSucceeds(st, input, env, 0);
    FirstFailureStops(st, input, env, st.nextID, 0, j, SaveFrom(st, input, env, 0).0);
    SaveFromKeepsSound(st, input, env, 0);
  }

  /** When only the row is refused, every document is an orphan. */
  lemma InsertFailureLeavesOrphans(st: Store, input: RecordInput, env: RecordEnv, k: nat)
    requires Sound(st) && RecordEffect(true, st, input, env).1 == Err(InsertFailed) && k < DocCount(input)
    ensures RecordEffect(true, st, input, env).0.calls == st.calls
    ensures DocStored(RecordEffect(true, st, input, env).0, st.nextID, input, k)
  {
    var saved := SaveFrom(st, input, env, 0).0;
    SaveErrorKind(st, input, env, 0);
    SaveFromKeepsSound(st, input, env, 0);
    SaveFromStores(st, input, env, st.nextID, 0, saved);
    assert DocStored(saved, st.nextID, input, k);
  }

  lemma {:induction false} SaveErrorKind(st: Store, input: RecordInput, env: RecordEnv, k: nat)
    requires k <= DocCount(input)
    ensures SaveFrom(st, input, env, k).1 in {None, Some(Unmarshallable), Some(SaveFailed)}
    decreases DocCount(input) - k
  {
    if k < DocCount(input) { SaveErrorKind(AfterSave(st, input, env, k), input, env, k + 1); }
  }

  lemma RecordForbids(allowed: bool, st: Store, input: RecordInput, env: RecordEnv)
    ensures RecordEffect(allowed, st, input, env).1 == Err(Forbidden) <==> !allowed
    ensures !allowed ==> RecordEffect(allowed, st, input, env).0 == st
  {
    SaveErrorKind(st, input, env, 0);
  }

  // ---------- counters ----------

  function CallsBy(calls: seq<ToolCall>, toolName: string, status: Status): nat {
    if calls == [] then 0
    else CallsBy(calls[..|calls| - 1], toolName, status)
         + if calls[|calls| - 1].toolName == toolName && calls[|calls| - 1].status == status then 1 else 0
  }

  lemma CallsByAppend(calls: seq<ToolCall>, c: ToolCall, toolName: string, status: Status)
    ensures CallsBy(calls + [c], toolName, status)
            == CallsBy(calls, toolName, status) + if c.toolName == toolName && c.status == status then 1 else 0
  {
    assert (calls + [c])[..|calls|] == calls;
  }

  type Counters = map<(string, Status), nat>

  /** `tool_calls_total` per tool and status equals the rows inserted since the process started. */
  ghost predicate CountersMatch(counters: Counters, since: seq<ToolCall>) {
    forall toolName, status :: Telemetry.Reading(counters, (toolName, status)) == CallsBy(since, toolName, status)
  }

  lemma CountersFollow(counters: Counters, since: seq<ToolCall>, c: ToolCall)
    requires CountersMatch(counters, since)
    ensures CountersMatch(Telemetry.Bump(counters, (c.toolName, c.status)), since + [c])
  {
    var bumped := Telemetry.Bump(counters, (c.toolName, c.status));
    forall toolName, status ensures Telemetry.Reading(bumped, (toolName, status)) == CallsBy(since + [c], toolName, status) {
      CallsByAppend(since, c, toolName, status);
    }
  }

  function CountersAfter(counters: Counters, toolName: string, r: Result<Recorded, RecordError>): Counters {
    if r.Ok? then Telemetry.Bump(counters, (toolName, r.value.call.status)) else counters
  }

  ghost predicate ServiceValid(st: Store, bootRows: nat, counters: Counters) {
    Sound(st) && bootRows <= |st.calls| && CountersMatch(counters, st.calls[bootRows..])
  }

  lemma RecordKeepsValid(allowed: bool, st: Store, input: RecordInput, env: RecordEnv, bootRows: nat, counters: Counters)
    requires ServiceValid(st, bootRows, counters)
    ensures var (st', r) := RecordEffect(allowed, st, input, env);
            ServiceValid(st', bootRows, CountersAfter(counters, input.toolName, r))
  {
    RecordKeepsSound(allowed, st, input, env);
    RecordAddsTheRow(allowed, st, input, env);
    var (st', r) := RecordEffect(allowed, st, input, env);
    if r.Ok? {
      CountersFollow(counters, st.calls[bootRows..], r.value.call);
      assert st'.calls[bootRows..] == st.calls[bootRows..] + [r.value.call];
    }
  }

  lemma SavedIdentifier(st: Store, runID: string, doc: Doc, env: SaveEnv)
    ensures var (st', saved) := SaveEffect(st, runID, doc, env);
            st'.nextID == st.nextID + 1 && (saved.Some? ==> saved.value == st.nextID)
  {
  }

  /** `SaveFrom` unrolled over the two fixed documents. */
  lemma SavesInOrder(st: Store, input: RecordInput, env: RecordEnv)
    ensures input.request.None? ==> SaveFrom(st, input, env, 0) == (st, Some(Unmarshallable))
    ensures input.request.Some? ==>
              var (st1, request) := SaveEffect(st, input.runID, RequestDoc(input.toolName, input.request.value), EnvAt(env, 0));
              SaveFrom(st, input, env, 0)
              == if request.None? then (st1, Some(SaveFailed))
                 else if input.response.None? then (st1, Some(Unmarshallable))
                 else
                   var (st2, response) := SaveEffect(st1, input.runID, ResponseDoc(input.toolName, input.response.value), EnvAt(env, 1));
                   if response.None? then (st2, Some(SaveFailed)) else SaveFrom(st2, input, env, 2)
  {
    if input.request.Some? {
      var (st1, request) := SaveEffect(st, input.runID, RequestDoc(input.toolName, input.request.value), EnvAt(env, 0));
      assert request.Some? ==> SaveFrom(st, input, env, 0) == SaveFrom(st1, input, env, 1);
    }
  }

  // ---------- replay ----------

  /** A lookup by idempotency slot; `expected` is the request document to compare with, when the key came
      from the client. */
  function ReplayEffect(st: Store, slot: Slot, expected: Option<string>, env: ReplayEnv): Result<Option<Replay>, ReplayError> {
    if !env.lookupOk then Err(LookupFailed)
    else
      match LookupOk(st.calls, slot)
      case None => Ok(None)
      case Some(call) =>
        var request, response := ReadArtifact(st, call.request), ReadArtifact(st, call.response);
        if expected.Some? && (!env.readOk || request.None?) then Err(ReadFailed)
        else if expected.Some? && request != expected then Err(KeyConflict)
        else if !env.readOk || response.None? then Err(ReadFailed)
        else
          match DecodeIssue(response.value)
          case None => Err(DecodeFailed)
          case Some(issue) => Ok(Some(Replay(call, issue)))
  }

  function SlotFor(input: RecordInput): Slot
    requires input.key.Some?
  {
    Slot(input.runID, input.toolName, input.key.value)
  }

  /** The row a successful keyed `Record` of an ok outcome added is, from then on and whatever is
      recorded later, the one its slot finds, with the documents it was given. */
  lemma RecordIsFound(allowed: bool, st: Store, input: RecordInput, env: RecordEnv, later: Store)
    requires Sound(st) && RecordEffect(allowed, st, input, env).1.Ok? && input.key.Some? && !input.failed
    requires Sound(later) && Extends(RecordEffect(allowed, st, input, env).0, later)
    ensures input.request.Some? && input.response.Some?
    ensures var call := RecordEffect(allowed, st, input, env).1.value.call;
            && LookupOk(later.calls, SlotFor(input)) == Some(call)
            && ReadArtifact(later, call.request) == input.request && ReadArtifact(later, call.response) == input.response
  {
    var (st', r) := RecordEffect(allowed, st, input, env);
    RecordAddsTheRow(allowed, st, input, env);
    assert DocStored(st', st.nextID, input, 0) && DocStored(st', st.nextID, input, 1);
    StoredStays(st', later, st.nextID, input.runID, DocAt(input, 0).value);
    StoredStays(st', later, st.nextID + 1, input.runID, DocAt(input, 1).value);
    assert r.value.call == st'.calls[|st'.calls| - 1] == later.calls[|st'.calls| - 1];
    OkRowIsTheOne(later.calls, r.value.call, SlotFor(input));
  }

  /** Main result: what a retry gets. After a keyed ok `Record`, whatever was recorded since, a replay
      that meets no fault finds that call and decodes its response document; with a client-supplied key
      it is refused exactly when the request document differs. */
  lemma RecordThenReplay(allowed: bool, st: Store, input: RecordInput, env: RecordEnv, later: Store, expected: Option<string>)
    requires Sound(st) && RecordEffect(allowed, st, input, env).1.Ok? && input.key.Some? && !input.failed
    requires Sound(later) && Extends(RecordEffect(allowed, st, input, env).0, later)
    ensures input.response.Some?
    ensures ReplayEffect(later, SlotFor(input), expected, ReplayEnv(true, true))
            == if expected.Some? && expected != input.request then Err(KeyConflict)
               else if DecodeIssue(input.response.value).None? then Err(DecodeFailed)
               else Ok(Some(Replay(RecordEffect(allowed, st, input, env).1.value.call, DecodeIssue(input.response.value).value)))
  {
    RecordIsFound(allowed, st, input, env, later);
  }

  /** A failed outcome is recorded but never replayed: its slot finds what it found before. */
  lemma FailureIsNotReplayed(allowed: bool, st: Store, input: RecordInput, env: RecordEnv, slot: Slot)
    requires Sound(st) && input.failed
    ensures LookupOk(RecordEffect(allowed, st, input, env).0.calls, slot) == LookupOk(st.calls, slot)
  {
    RecordAddsTheRow(allowed, st, input, env);
    var (st', r) := RecordEffect(allowed, st, input, env);
    if r.Ok? { LookupAppend(st.calls, r.value.call, slot); }
  }

  // ---------- the path guard ----------

  lemma DecimalIsPlain(n: nat)
    ensures Paths.Plain(Text.Decimal(n))
  {
    var s := Text.Decimal(n);
    assert Text.IsDigit(s[0]);
  }

  /** On plain identifiers, as the server makes them, the guard in front of a read looks at the base
      directory alone: it passes exactly when that is neither the root nor the current directory. */
  lemma GuardDecidesByBase(baseDir: string, runID: string, id: Id)
    requires baseDir != "" && Paths.Plain(runID)
    ensures ArtifactPath.SafePath(baseDir, runID, Text.Decimal(id)).Ok? <==> !ArtifactPath.TrivialBase(baseDir)
  {
    DecimalIsPlain(id);
    ArtifactPath.ReadFindsWhatSaveWrote(baseDir, runID, Text.Decimal(id));
  }

  // ---------- the service ----------

  class AuditService {
    const policy: PathPolicy.Policy
    const baseDir: string
    const bootRows: nat
    var runs: set<string>
    var files: map<FileName, string>
    var artifacts: map<Id, ArtifactRow>
    var calls: seq<ToolCall>
    var nextID: Id
    var toolCalls: Counters
    var artifactWriteFailures: nat

    function View(): Store
      reads this
    {
      Store(runs, files, artifacts, calls, nextID)
    }

    ghost predicate Valid()
      reads this
    {
      ServiceValid(View(), bootRows, toolCalls)
    }

    /** A process starting on the storage an earlier one left. */
    constructor (policy: PathPolicy.Policy, baseDir: string, st: Store)
      requires Sound(st)
      ensures Valid() && View() == st && this.policy == policy && this.baseDir == baseDir && bootRows == |st.calls|
      ensures toolCalls == map[] && artifactWriteFailures == 0
    {
      this.policy, this.baseDir, bootRows := policy, baseDir, |st.calls|;
      runs, files, artifacts, calls, nextID := st.runs, st.files, st.artifacts, st.calls, st.nextID;
      toolCalls, artifactWriteFailures := map[], 0;
    }

    method Save(runID: string, doc: Doc, env: SaveEnv) returns (saved: Option<Id>)
      modifies this`files, this`artifacts, this`nextID
      ensures (View(), saved) == SaveEffect(old(View()), runID, doc, env)
    {
      var id := nextID;
      nextID := nextID + 1;
      if !env.dirOk || !env.createOk {
        return None;
      }
      var name := FileName(runID, id);
      files := files[name := ""];
      if !env.writeOk {
        files := files[name := env.partial];
        if env.removeOk {
          files := files - {name};
        }
        return None;
      }
      files := files[name := doc.bytes];
      if !env.rowOk || !CanInsertArtifact(View(), id, RowOf(runID, doc)) {
        if env.removeOk {
          files := files - {name};
        }
        return None;
      }
      artifacts := artifacts[id := RowOf(runID, doc)];
      return Some(id);
    }

    method SaveExtras(input: RecordInput, env: RecordEnv) returns (extras: seq<Id>, error: Option<RecordError>)
      modifies this`files, this`artifacts, this`nextID
      ensures (View(), error) == SaveFrom(old(View()), input, env, 2)
      ensures error.None? || error == Some(SaveFailed)
      ensures error.None? ==> |extras| == |input.extras| && forall k | 0 <= k < |extras| :: extras[k] == old(nextID) + k
    {
      extras := [];
      for i := 0 to |input.extras|
        invariant SaveFrom(View(), input, env, i + 2) == SaveFrom(old(View()), input, env, 2)
        invariant |extras| == i && nextID == old(nextID) + i
        invariant forall k | 0 <= k < i :: extras[k] == old(nextID) + k
      {
        assert DocAt(input, i + 2) == Some(input.extras[i]);
        SavedIdentifier(View(), input.runID, input.extras[i], EnvAt(env, i + 2));
        var saved := Save(input.runID, input.extras[i], EnvAt(env, i + 2));
        if saved.None? {
          return extras, Some(SaveFailed);
        }
        extras := extras + [saved.value];
      }
      return extras, None;
    }

    /** Request, response, extras: the first failure ends it. */
    method SaveDocuments(input: RecordInput, env: RecordEnv) returns (r: Result<Saved, RecordError>)
      modifies this`files, this`artifacts, this`nextID
      ensures SaveFrom(old(View()), input, env, 0) == (View(), if r.Err? then Some(r.error) else None)
      ensures r.Ok? ==> r.value == Saved(old(nextID), old(nextID) + 1, ExtraIDs(old(nextID), |input.extras|))
    {
      SavesInOrder(View(), input, env);
      if input.request.None? {
        return Err(Unmarshallable);
      }
      var request := Save(input.runID, RequestDoc(input.toolName, input.request.value), EnvAt(env, 0));
      SavedIdentifier(old(View()), input.runID, RequestDoc(input.toolName, input.request.value), EnvAt(env, 0));
      if request.None? {
        return Err(SaveFailed);
      }
      if input.response.None? {
        return Err(Unmarshallable);
      }
      SavedIdentifier(View(), input.runID, ResponseDoc(input.toolName, input.response.value), EnvAt(env, 1));
      var response := Save(input.runID, ResponseDoc(input.toolName, input.response.value), EnvAt(env, 1));
      if response.None? {
        return Err(SaveFailed);
      }
      var extras, error := SaveExtras(input, env);
      if error.Some? {
        return Err(SaveFailed);
      }
      assert extras == ExtraIDs(old(nextID), |input.extras|);
      return Ok(Saved(request.value, response.value, extras));
    }

    /** The writes of `Record`, in order. */
    method WriteRecord(input: RecordInput, env: RecordEnv) returns (r: Result<Recorded, RecordError>)
      modifies this`files, this`artifacts, this`nextID, this`calls, this`artifactWriteFailures
      ensures (View(), r) == RecordEffect(policy.CheckTool(input.toolName), old(View()), input, env)
      ensures artifactWriteFailures == old(artifactWriteFailures) + if r == Err(SaveFailed) then 1 else 0
    {
      if !policy.CheckTool(input.toolName) {
        return Err(Forbidden);
      }
      SavesInOrder(View(), input, env);
      var saved := SaveDocuments(input, env);
      if saved.Err? {
        if saved.error == SaveFailed {
          artifactWriteFailures := artifactWriteFailures + 1;
        }
        return Err(saved.error);
      }
      var call := ToolCall(nextID, input.runID, input.toolName, input.key, if input.failed then StatusFail else StatusOk,
                           saved.value.request, saved.value.response, Sha256(input.request.value + input.response.value));
      nextID := nextID + 1;
      if !env.insertOk || !CanInsertCall(View(), call) {
        return Err(InsertFailed);
      }
      calls := calls + [call];
      return Ok(Recorded(call, saved.value.extras));
    }

    /** `Record` does exactly what its effect function says; sound storage and matching counters are kept. */
    method Record(input: RecordInput, env: RecordEnv) returns (r: Result<Recorded, RecordError>)
      modifies this`files, this`artifacts, this`nextID, this`calls, this`toolCalls, this`artifactWriteFailures
      ensures (View(), r) == RecordEffect(policy.CheckTool(input.toolName), old(View()), input, env)
      ensures old(Valid()) ==> Valid()
      ensures toolCalls == CountersAfter(old(toolCalls), input.toolName, r)
      ensures r == Err(Forbidden) <==> input.toolName !in policy.allowedTools
      ensures r == Err(Forbidden) ==> View() == old(View())
      ensures artifactWriteFailures == old(artifactWriteFailures) + if r == Err(SaveFailed) then 1 else 0
    {
      RecordForbids(policy.CheckTool(input.toolName), View(), input, env);
      r := WriteRecord(input, env);
      if r.Ok? {
        toolCalls := Telemetry.Bump(toolCalls, (input.toolName, r.value.call.status));
      }
      if ServiceValid(old(View()), bootRows, old(toolCalls)) {
        RecordKeepsValid(policy.CheckTool(input.toolName), old(View()), input, env, bootRows, old(toolCalls));
      }
    }

    /** The environment of a lookup, with the path guard in front of every read. */
    function Guarded(env: ReplayEnv): ReplayEnv {
      env.(readOk := env.readOk && !ArtifactPath.TrivialBase(baseDir))
    }

    method Read(id: Id, env: ReplayEnv) returns (text: Option<string>)
      ensures text == if Guarded(env).readOk then ReadArtifact(View(), id) else None
      ensures text == if env.readOk && !ArtifactPath.TrivialBase(baseDir) then ReadArtifact(View(), id) else None
    {
      // the guard's verdict on server-made identifiers, by `GuardDecidesByBase`
      if id !in artifacts || ArtifactPath.TrivialBase(baseDir) || !env.readOk {
        return None;
      }
      var name := FileName(artifacts[id].runID, id);
      if name !in files {
        return None;
      }
      return Some(files[name]);
    }

    method ReplayResponse(slot: Slot, env: ReplayEnv) returns (r: Result<Option<Replay>, ReplayError>)
      ensures r == ReplayEffect(View(), slot, None, Guarded(env))
    {
      if !env.lookupOk {
        return Err(LookupFailed);
      }
      var call := LookupOk(calls, slot);
      if call.None? {
        return Ok(None);
      }
      var text := Read(call.value.response, env);
      if text.None? {
        return Err(ReadFailed);
      }
      var issue := DecodeIssue(text.value);
      if issue.None? {
        return Err(DecodeFailed);
      }
      return Ok(Some(Replay(call.value, issue.value)));
    }

    method ReplayResponseWithRequestCheck(slot: Slot, request: string, env: ReplayEnv) returns (r: Result<Option<Replay>, ReplayError>)
      ensures r == ReplayEffect(View(), slot, Some(request), Guarded(env))
    {
      if !env.lookupOk {
        return Err(LookupFailed);
      }
      var call := LookupOk(calls, slot);
      if call.None? {
        return Ok(None);
      }
      var stored := Read(call.value.request, env);
      if stored.None? {
        return Err(ReadFailed);
      }
      if stored.value != request {
        return Err(KeyConflict);
      }
      var text := Read(call.value.response, env);
      if text.None? {
        return Err(ReadFailed);
      }
      var issue := DecodeIssue(text.value);
      if issue.None? {
        return Err(DecodeFailed);
      }
      return Ok(Some(Replay(call.value, issue.value)));
    }
  }
}

/** The gateway's storage: artifact files, artifact rows and tool-call rows, with the atomic
    effects a request can have on them and what every effect preserves. */
module Store {
  import opened Wrappers
  import opened Hash

  /** Identifiers are drawn fresh from a counter. */
  type Id = nat

  datatype Key = Derived(digest: Digest) | Supplied(header: string)
  datatype Status = StatusOk | StatusFail
  datatype FileName = FileName(runID: string, id: Id)
  datatype ArtifactRow = ArtifactRow(runID: string, name: string, sha: Digest, size: nat, contentType: string)
  datatype ToolCall = ToolCall(id: Id, runID: string, toolName: string, key: Option<Key>, status: Status,
                               request: Id, response: Id, evidence: Digest)

  datatype Store = Store(runs: set<string>, files: map<FileName, string>, artifacts: map<Id, ArtifactRow>,
                         calls: seq<ToolCall>, nextID: Id)

  // ---------- the idempotency index ----------

  /** What the unique index ranges over. */
  datatype Slot = Slot(runID: string, toolName: string, key: Key)

  predicate OkFor(c: ToolCall, slot: Slot) {
    c.status == StatusOk && c.key == Some(slot.key) && c.runID == slot.runID && c.toolName == slot.toolName
  }

  function OkRows(calls: seq<ToolCall>, slot: Slot): nat {
    if calls == [] then 0
    else OkRows(calls[..|calls| - 1], slot) + if OkFor(calls[|calls| - 1], slot) then 1 else 0
  }

  /** `GetSuccessfulToolCallByIdempotency`: the newest ok row of the slot. */
  function LookupOk(calls: seq<ToolCall>, slot: Slot): Option<ToolCall> {
    if calls == [] then None
    else if OkFor(calls[|calls| - 1], slot) then Some(calls[|calls| - 1])
    else LookupOk(calls[..|calls| - 1], slot)
  }

  lemma {:induction false} LookupMeaning(calls: seq<ToolCall>, slot: Slot)
    ensures LookupOk(calls, slot) == None <==> OkRows(calls, slot) == 0
    ensures LookupOk(calls, slot).Some? ==> LookupOk(calls, slot).value in calls && OkFor(LookupOk(calls, slot).value, slot)
  {
    if calls != [] { LookupMeaning(calls[..|calls| - 1], slot); }
  }

  /** What a lookup finds: the newest row of this run, tool and key that is ok; nothing when there is none. */
  lemma {:induction false} LookupFindsNewest(calls: seq<ToolCall>, slot: Slot) returns (i: int)
    ensures -1 <= i < |calls| && (i == -1 <==> LookupOk(calls, slot) == None)
    ensures i >= 0 ==>
              && LookupOk(calls, slot) == Some(calls[i])
              && calls[i].runID == slot.runID && calls[i].toolName == slot.toolName && calls[i].key == Some(slot.key) && calls[i].status == StatusOk
    ensures forall j | i < j < |calls| ::
              calls[j].runID != slot.runID || calls[j].toolName != slot.toolName || calls[j].key != Some(slot.key) || calls[j].status != StatusOk
  {
    i := |calls| - 1;
    if calls != [] && !OkFor(calls[i], slot) { i := LookupFindsNewest(calls[..i], slot); }
  }

  lemma LookupAppend(calls: seq<ToolCall>, c: ToolCall, slot: Slot)
    ensures LookupOk(calls + [c], slot) == if OkFor(c, slot) then Some(c) else LookupOk(calls, slot)
  {
    assert (calls + [c])[..|calls|] == calls;
  }

  lemma OkRowsAppend(calls: seq<ToolCall>, c: ToolCall, slot: Slot)
    ensures OkRows(calls + [c], slot) == OkRows(calls, slot) + if OkFor(c, slot) then 1 else 0
  {
    assert (calls + [c])[..|calls|] == calls;
  }

  lemma {:induction false} OkRowsPositive(calls: seq<ToolCall>, c: ToolCall, slot: Slot)
    requires c in calls && OkFor(c, slot)
    ensures OkRows(calls, slot) >= 1
  {
    if calls[|calls| - 1] != c {
      assert calls == calls[..|calls| - 1] + [calls[|calls| - 1]];
      OkRowsPositive(calls[..|calls| - 1], c, slot);
    }
  }

  /** With at most one ok row per slot, the lookup finds precisely that row. */
  lemma {:induction false} OkRowIsTheOne(calls: seq<ToolCall>, c: ToolCall, slot: Slot)
    requires OkRows(calls, slot) <= 1 && c in calls && OkFor(c, slot)
    ensures LookupOk(calls, slot) == Some(c)
  {
    var init, last := calls[..|calls| - 1], calls[|calls| - 1];
    assert calls == init + [last];
    if c in init {
      OkRowsPositive(init, c, slot);
      OkRowIsTheOne(init, c, slot);
    }
  }

  // ---------- invariant ----------

  function Content(st: Store, id: Id): string
    requires id in st.artifacts && FileName(st.artifacts[id].runID, id) in st.files
  {
    st.files[FileName(st.artifacts[id].runID, id)]
  }

  /** Reading goes through the row to the file. */
  function ReadArtifact(st: Store, id: Id): Option<string> {
    if id in st.artifacts && FileName(st.artifacts[id].runID, id) in st.files then Some(Content(st, id)) else None
  }

  /** An artifact row describes a file that is there, byte for byte. */
  ghost predicate ArtifactBacked(st: Store, id: Id)
    requires id in st.artifacts
  {
    var row := st.artifacts[id];
    && id < st.nextID
    && row.runID in st.runs
    && FileName(row.runID, id) in st.files
    && row.sha == Sha256(Content(st, id))
    && row.size == |Content(st, id)|
  }

  ghost predicate ArtifactsBacked(st: Store) {
    forall id | id in st.artifacts :: ArtifactBacked(st, id)
  }

  /** A tool-call row points to a request and a response artifact of its own run, and its evidence
      hash covers exactly their bytes. */
  ghost predicate CallBacked(st: Store, c: ToolCall)
    requires ArtifactsBacked(st)
  {
    && c.id < st.nextID && c.runID in st.runs
    && c.request in st.artifacts && st.artifacts[c.request].runID == c.runID
    && c.response in st.artifacts && st.artifacts[c.response].runID == c.runID
    && c.evidence == Sha256(Content(st, c.request) + Content(st, c.response))
  }

  ghost predicate CallsBacked(st: Store)
    requires ArtifactsBacked(st)
  {
    forall i | 0 <= i < |st.calls| :: CallBacked(st, st.calls[i])
  }

  ghost predicate UniqueOk(st: Store) {
    forall slot :: OkRows(st.calls, slot) <= 1
  }

  ghost predicate Backed(st: Store) {
    ArtifactsBacked(st) && CallsBacked(st) && UniqueOk(st)
  }

  /** All file names come from identifiers already drawn. */
  ghost predicate FilesDrawn(st: Store) {
    forall name | name in st.files :: name.id < st.nextID
  }

  ghost predicate Sound(st: Store) { Backed(st) && FilesDrawn(st) }

  /** Evidence is append-only: rows and the bytes behind them, once there, stay as they are. */
  ghost predicate Extends(st: Store, st': Store) {
    && st'.runs == st.runs
    && st.nextID <= st'.nextID
    && st.calls <= st'.calls
    && forall id | id in st.artifacts ::
         && id in st'.artifacts && st'.artifacts[id] == st.artifacts[id]
         && (FileName(st.artifacts[id].runID, id) in st.files ==>
               FileName(st.artifacts[id].runID, id) in st'.files && Content(st', id) == Content(st, id))
  }

  lemma ExtendsTransitive(a: Store, b: Store, c: Store)
    requires Backed(a) && Extends(a, b) && Extends(b, c)
    ensures Extends(a, c)
  {
    forall id | id in a.artifacts ensures id in c.artifacts && c.artifacts[id] == a.artifacts[id]
                                          && FileName(a.artifacts[id].runID, id) in c.files && Content(c, id) == Content(a, id)
    {
      assert ArtifactBacked(a, id);
      assert id in b.artifacts;
    }
  }

  // ---------- atomic effects ----------

  function DrawID(st: Store): Store { st.(nextID := st.nextID + 1) }

  function PutFile(st: Store, name: FileName, bytes: string): Store {
    st.(files := st.files[name := bytes])
  }

  function RemoveFile(st: Store, name: FileName): Store {
    st.(files := st.files - {name})
  }

  /** Primary key and foreign key of `artifacts`. */
  predicate CanInsertArtifact(st: Store, id: Id, row: ArtifactRow) {
    id !in st.artifacts && row.runID in st.runs
  }

  function InsertArtifact(st: Store, id: Id, row: ArtifactRow): Store {
    st.(artifacts := st.artifacts[id := row])
  }

  /** Foreign keys of `tool_calls` and its partial unique index on keyed ok rows. */
  predicate CanInsertCall(st: Store, c: ToolCall) {
    && c.runID in st.runs && c.request in st.artifacts && c.response in st.artifacts
    && (c.status == StatusOk && c.key.Some? ==> LookupOk(st.calls, Slot(c.runID, c.toolName, c.key.value)) == None)
  }

  function InsertCall(st: Store, c: ToolCall): Store { st.(calls := st.calls + [c]) }

  lemma DrawIDKeepsBacked(st: Store)
    requires Backed(st)
    ensures Backed(DrawID(st)) && Extends(st, DrawID(st))
  {
    var st' := DrawID(st);
    forall id | id in st'.artifacts ensures ArtifactBacked(st', id) { assert ArtifactBacked(st, id); }
    forall i | 0 <= i < |st'.calls| ensures CallBacked(st', st'.calls[i]) { assert CallBacked(st, st.calls[i]); }
  }

  /** Files without an artifact row may change freely. */
  lemma FileChangeKeepsBacked(st: Store, st': Store, id: Id)
    requires Backed(st) && id !in st.artifacts
    requires st' == st.(files := st'.files)
    requires forall name: FileName | name.id != id :: name in st'.files <==> name in st.files
    requires forall name: FileName | name in st.files && name.id != id :: name in st'.files && st'.files[name] == st.files[name]
    ensures Backed(st') && Extends(st, st')
  {
    forall other | other in st'.artifacts ensures ArtifactBacked(st', other) { assert ArtifactBacked(st, other); }
    forall i | 0 <= i < |st'.calls| ensures CallBacked(st', st'.calls[i]) { assert CallBacked(st, st.calls[i]); }
  }

  lemma PutFileKeepsBacked(st: Store, name: FileName, bytes: string)
    requires Backed(st) && name.id !in st.artifacts
    ensures Backed(PutFile(st, name, bytes)) && Extends(st, PutFile(st, name, bytes))
  {
    FileChangeKeepsBacked(st, PutFile(st, name, bytes), name.id);
  }

  lemma RemoveFileKeepsBacked(st: Store, name: FileName)
    requires Backed(st) && name.id !in st.artifacts
    ensures Backed(RemoveFile(st, name)) && Extends(st, RemoveFile(st, name))
  {
    FileChangeKeepsBacked(st, RemoveFile(st, name), name.id);
  }

  lemma InsertArtifactKeepsBacked(st: Store, id: Id, row: ArtifactRow)
    requires Backed(st) && CanInsertArtifact(st, id, row) && id < st.nextID
    requires FileName(row.runID, id) in st.files
    requires row.sha == Sha256(st.files[FileName(row.runID, id)]) && row.size == |st.files[FileName(row.runID, id)]|
    ensures Backed(InsertArtifact(st, id, row)) && Extends(st, InsertArtifact(st, id, row))
  {
    var st' := InsertArtifact(st, id, row);
    forall other | other in st'.artifacts ensures ArtifactBacked(st', other) {
      if other != id { assert ArtifactBacked(st, other); }
    }
    forall i | 0 <= i < |st'.calls| ensures CallBacked(st', st'.calls[i]) { assert CallBacked(st, st.calls[i]); }
  }

  lemma InsertCallKeepsBacked(st: Store, c: ToolCall)
    requires Backed(st) && CanInsertCall(st, c) && CallBacked(st, c)
    ensures Backed(InsertCall(st, c)) && Extends(st, InsertCall(st, c))
  {
    var st' := InsertCall(st, c);
    forall id | id in st'.artifacts ensures ArtifactBacked(st', id) { assert ArtifactBacked(st, id); }
    forall i | 0 <= i < |st'.calls| ensures CallBacked(st', st'.calls[i]) {
      if i < |st.calls| { assert CallBacked(st, st.calls[i]); }
    }
    forall slot ensures OkRows(st'.calls, slot) <= 1 {
      OkRowsAppend(st.calls, c, slot);
      LookupMeaning(st.calls, slot);
    }
  }
}

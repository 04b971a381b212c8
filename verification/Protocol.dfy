/** The audit and idempotency protocol as a step machine: any number of issue requests, single and
    batch, interleave their storage writes and GitHub calls; every write may fail; a request that is
    never scheduled again has crashed at that point. */
module Protocol {
  import opened Wrappers
  import opened Hash
  import opened Json
  import opened IssueExchange
  import opened Store

  // ---------- requests ----------

  /** One issue: its idempotency key, what the stored documents show, and its request document. */
  datatype Item = Item(key: Key, form: IssueForm, request: seq<Member>)

  /** `checkRequest`: the key came from the client, so a replay compares request documents. */
  datatype Request = Request(runID: string, toolName: string, transport: Transport, items: seq<Item>,
                             dryRun: bool, strict: bool, checkRequest: bool)

  /** Progress of saving one artifact. */
  datatype Phase =
    | Fresh              // about to draw an identifier and create the file
    | Open(id: Id)       // empty file created
    | Full(id: Id)       // bytes written, row not yet inserted
    | Removing(id: Id)   // a write failed, file about to be removed

  datatype End = Completed | Stopped | RecordFailed | ReplayFailed | Conflict

  datatype Pc =
    | Lookup
    | Replaying(row: ToolCall, checked: bool)
    | Creating
    | Awaiting
    | Saving(outcome: Outcome, saved: seq<Id>, phase: Phase)
    | Inserting(outcome: Outcome, saved: seq<Id>)
    | Finished(end: End)

  datatype Proc = Proc(req: Request, index: nat, pc: Pc)

  /** What the environment lets the next step do. */
  datatype Choice = Go | Fault(partial: string) | Reply(issue: Issue)

  datatype Entry =
    | Looked(pid: nat, index: nat, slot: Slot, sawOk: bool)
    | Started(pid: nat, index: nat, slot: Slot)
    | Got(pid: nat, index: nat, slot: Slot, outcome: Outcome)
    | Inserted(call: ToolCall)
    | Lost(slot: Slot, ok: bool)
    | Replayed(slot: Slot, text: string)

  datatype System = System(store: Store, procs: seq<Proc>, log: seq<Entry>)
  datatype Event = Arrive(req: Request) | Act(pid: nat, choice: Choice)

  predicate OkOutcome(o: Outcome) { !o.GitHubError? }

  predicate Active(p: Proc) { p.index < |p.req.items| && !p.pc.Finished? }

  function SlotOf(p: Proc): Slot
    requires p.index < |p.req.items|
  {
    Slot(p.req.runID, p.req.toolName, p.req.items[p.index].key)
  }

  /** The documents `Record` saves, in order: request, response. */
  function DocText(p: Proc, o: Outcome, k: nat): string
    requires p.index < |p.req.items|
  {
    var item := p.req.items[p.index];
    if k == 0 then Encode(Obj(item.request)) else Encode(ResponseJson(p.req.transport, item.form, o))
  }

  function DocName(p: Proc, k: nat): string {
    p.req.toolName + if k == 0 then ".request.json" else ".response.json"
  }

  /** On to the next item, or done. */
  function Advance(p: Proc): Proc {
    if p.index + 1 < |p.req.items| then p.(index := p.index + 1, pc := Lookup) else p.(pc := Finished(Completed))
  }

  // ---------- one step of one request ----------

  datatype Local = Local(store: Store, proc: Proc, log: seq<Entry>)

  function StepLookup(st: Store, pid: nat, p: Proc, choice: Choice): Local
    requires Active(p)
  {
    if choice.Fault? then Local(st, p.(pc := Finished(ReplayFailed)), [])
    else
      match LookupOk(st.calls, SlotOf(p))
      case Some(row) => Local(st, p.(pc := Replaying(row, !p.req.checkRequest)), [Looked(pid, p.index, SlotOf(p), true)])
      case None => Local(st, p.(pc := Creating), [Looked(pid, p.index, SlotOf(p), false)])
  }

  function StepReplaying(st: Store, p: Proc, choice: Choice): Local
    requires Active(p) && p.pc.Replaying?
  {
    var text := ReadArtifact(st, if p.pc.checked then p.pc.row.response else p.pc.row.request);
    if choice.Fault? || text.None? then Local(st, p.(pc := Finished(ReplayFailed)), [])
    else if p.pc.checked then
      if DecodeIssue(text.value).None? then Local(st, p.(pc := Finished(ReplayFailed)), [])
      else Local(st, Advance(p), [Replayed(SlotOf(p), text.value)])
    else if text.value == DocText(p, DryRun, 0) then Local(st, p.(pc := p.pc.(checked := true)), [])
    else Local(st, p.(pc := Finished(Conflict)), [])
  }

  function StepCreating(st: Store, pid: nat, p: Proc): Local
    requires Active(p)
  {
    if p.req.dryRun then Local(st, p.(pc := Saving(DryRun, [], Fresh)), [Got(pid, p.index, SlotOf(p), DryRun)])
    else Local(st, p.(pc := Awaiting), [Started(pid, p.index, SlotOf(p))])
  }

  function StepAwaiting(st: Store, pid: nat, p: Proc, choice: Choice): Local
    requires Active(p)
  {
    match choice
    case Reply(issue) => Local(st, p.(pc := Saving(Created(issue), [], Fresh)), [Got(pid, p.index, SlotOf(p), Created(issue))])
    case _ => Local(st, p.(pc := Saving(GitHubError, [], Fresh)), [Got(pid, p.index, SlotOf(p), GitHubError)])
  }

  function RecordFails(st: Store, p: Proc, o: Outcome): Local
    requires Active(p)
  {
    Local(st, p.(pc := Finished(RecordFailed)), [Lost(SlotOf(p), OkOutcome(o))])
  }

  function StepSaving(st: Store, p: Proc, choice: Choice): Local
    requires Active(p) && p.pc.Saving?
  {
    var o, saved := p.pc.outcome, p.pc.saved;
    var text := DocText(p, o, |saved|);
    match p.pc.phase
    case Fresh =>
      var id := st.nextID;
      if choice.Fault? then RecordFails(DrawID(st), p, o)
      else Local(PutFile(DrawID(st), FileName(p.req.runID, id), ""), p.(pc := Saving(o, saved, Open(id))), [])
    case Open(id) =>
      if choice.Fault? then
        Local(PutFile(st, FileName(p.req.runID, id), choice.partial), p.(pc := Saving(o, saved, Removing(id))), [])
      else Local(PutFile(st, FileName(p.req.runID, id), text), p.(pc := Saving(o, saved, Full(id))), [])
    case Full(id) =>
      var row := ArtifactRow(p.req.runID, DocName(p, |saved|), Sha256(text), |text|, "application/json");
      if choice.Fault? || !CanInsertArtifact(st, id, row) then Local(st, p.(pc := Saving(o, saved, Removing(id))), [])
      else
        var saved' := saved + [id];
        Local(InsertArtifact(st, id, row), p.(pc := if |saved'| < 2 then Saving(o, saved', Fresh) else Inserting(o, saved')), [])
    case Removing(id) =>
      RecordFails(if choice.Fault? then st else RemoveFile(st, FileName(p.req.runID, id)), p, o)
  }

  function NewCall(st: Store, p: Proc, o: Outcome, saved: seq<Id>): ToolCall
    requires Active(p) && |saved| == 2
  {
    ToolCall(st.nextID, p.req.runID, p.req.toolName, Some(SlotOf(p).key), if OkOutcome(o) then StatusOk else StatusFail,
             saved[0], saved[1], Sha256(DocText(p, o, 0) + DocText(p, o, 1)))
  }

  function StepInserting(st: Store, p: Proc, choice: Choice): Local
    requires Active(p) && p.pc.Inserting? && |p.pc.saved| == 2
  {
    var o := p.pc.outcome;
    var c := NewCall(st, p, o, p.pc.saved);
    if choice.Fault? || !CanInsertCall(DrawID(st), c) then RecordFails(DrawID(st), p, o)
    else
      Local(InsertCall(DrawID(st), c),
            if o.GitHubError? && p.req.strict then p.(pc := Finished(Stopped)) else Advance(p),
            [Inserted(c)])
  }

  function StepProc(st: Store, pid: nat, p: Proc, choice: Choice): Local
    requires Active(p) && (p.pc.Inserting? ==> |p.pc.saved| == 2)
  {
    match p.pc
    case Lookup => StepLookup(st, pid, p, choice)
    case Replaying(_, _) => StepReplaying(st, p, choice)
    case Creating => StepCreating(st, pid, p)
    case Awaiting => StepAwaiting(st, pid, p, choice)
    case Saving(_, _, _) => StepSaving(st, p, choice)
    case Inserting(_, _) => StepInserting(st, p, choice)
  }

  function Next(s: System, e: Event): System {
    match e
    case Arrive(req) =>
      if req.runID in s.store.runs && req.items != [] then s.(procs := s.procs + [Proc(req, 0, Lookup)]) else s
    case Act(pid, choice) =>
      if pid < |s.procs| && Active(s.procs[pid]) && (s.procs[pid].pc.Inserting? ==> |s.procs[pid].pc.saved| == 2) then
        var l := StepProc(s.store, pid, s.procs[pid], choice);
        System(l.store, s.procs[pid := l.proc], s.log + l.log)
      else s
  }

  function Run(s: System, events: seq<Event>): System {
    if events == [] then s else Next(Run(s, events[..|events| - 1]), events[|events| - 1])
  }

  function Init(runs: set<string>): System {
    System(Store(runs, map[], map[], [], 0), [], [])
  }
}

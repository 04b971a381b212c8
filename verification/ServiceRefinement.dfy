/** The step machine and the service agree: a request of the machine that records alone, its writes
    faring as some environment says, leaves the storage `Record` leaves in that environment. */
module ServiceRefinement {
  import opened Wrappers
  import opened IssueExchange
  import opened Store
  import opened Protocol
  import opened ProtocolProofs
  import opened ProtocolLaws
  import Audit

  /** One request running by itself, by the environment's choices in turn. */
  function Alone(l: Local, pid: nat, choices: seq<Choice>): Local
    decreases choices
  {
    if choices == [] || !Active(l.proc) || (l.proc.pc.Inserting? && |l.proc.pc.saved| != 2) then l
    else
      var step := StepProc(l.store, pid, l.proc, choices[0]);
      Alone(Local(step.store, step.proc, l.log + step.log), pid, choices[1..])
  }

  lemma {:induction false} AloneAppend(l: Local, pid: nat, a: seq<Choice>, b: seq<Choice>)
    ensures Alone(l, pid, a + b) == Alone(Alone(l, pid, a), pid, b)
    decreases a
  {
    if a == [] {
      assert a + b == b;
    } else if Active(l.proc) && (l.proc.pc.Inserting? ==> |l.proc.pc.saved| == 2) {
      var step := StepProc(l.store, pid, l.proc, a[0]);
      AloneAppend(Local(step.store, step.proc, l.log + step.log), pid, a[1..], b);
      assert (a + b)[0] == a[0] && (a + b)[1..] == a[1..] + b;
    } else {
      StuckAlone(l, pid, a + b);
      StuckAlone(l, pid, b);
    }
  }

  lemma StuckAlone(l: Local, pid: nat, choices: seq<Choice>)
    requires !Active(l.proc) || (l.proc.pc.Inserting? && |l.proc.pc.saved| != 2)
    ensures Alone(l, pid, choices) == l
  {
  }

  /** The same in the system: nobody else moves. */
  lemma {:induction false} AloneInSystem(s: System, pid: nat, choices: seq<Choice>) returns (events: seq<Event>)
    requires pid < |s.procs|
    ensures var l := Alone(Local(s.store, s.procs[pid], s.log), pid, choices);
            Run(s, events) == System(l.store, s.procs[pid := l.proc], l.log)
    decreases choices
  {
    var l0 := Local(s.store, s.procs[pid], s.log);
    if choices == [] || !Active(l0.proc) || (l0.proc.pc.Inserting? && |l0.proc.pc.saved| != 2) {
      events := [];
      assert s.procs[pid := l0.proc] == s.procs;
    } else {
      var first := Act(pid, choices[0]);
      var s' := Next(s, first);
      var rest := AloneInSystem(s', pid, choices[1..]);
      events := [first] + rest;
      RunPrepend(s, first, rest);
      var l := Alone(Local(s'.store, s'.procs[pid], s'.log), pid, choices[1..]);
      assert s'.procs[pid := l.proc] == s.procs[pid := l.proc];
    }
  }

  lemma RunPrepend(s: System, first: Event, rest: seq<Event>)
    ensures Run(s, [first] + rest) == Run(Next(s, first), rest)
  {
    RunAppend(s, [first], rest);
    RunOne(s, first);
  }

  lemma RunOne(s: System, e: Event)
    ensures Run(s, [e]) == Next(s, e)
  {
    assert [e][..0] == [];
  }

  predicate Movable(p: Proc) { Active(p) && (p.pc.Inserting? ==> |p.pc.saved| == 2) }

  function Moved(l: Local, pid: nat, c: Choice): Local
    requires Movable(l.proc)
  {
    var step := StepProc(l.store, pid, l.proc, c);
    Local(step.store, step.proc, l.log + step.log)
  }

  lemma AloneOne(l: Local, pid: nat, c: Choice, rest: seq<Choice>)
    requires Movable(l.proc)
    ensures Alone(l, pid, [c] + rest) == Alone(Moved(l, pid, c), pid, rest)
  {
    assert ([c] + rest)[1..] == rest;
  }

  // ---------- one replay ----------

  /** What a request with a client-supplied key compares with. */
  function ExpectedOf(p: Proc): Option<string>
    requires p.index < |p.req.items|
  {
    if p.req.checkRequest then Some(DocText(p, DryRun, 0)) else None
  }

  /** The choices that make the machine's lookup and reads fare as the environment says. */
  function ReplayChoices(l: Local, env: Audit.ReplayEnv): seq<Choice>
    requires Active(l.proc)
  {
    var look, read := if env.lookupOk then Go else Fault(""), if env.readOk then Go else Fault("");
    if LookupOk(l.store.calls, SlotOf(l.proc)).None? then [look]
    else if l.proc.req.checkRequest then [look] + ([read] + [read])
    else [look] + [read]
  }

  /** The machine's request after a replay attempt, told by the service. */
  ghost predicate ReplayEnds(l: Local, r: Result<Option<Audit.Replay>, Audit.ReplayError>, l': Local)
    requires Active(l.proc)
  {
    && l'.store == l.store && l.log <= l'.log
    && match r
       case Err(LookupFailed) => l'.proc == l.proc.(pc := Finished(ReplayFailed))
       case Err(ReadFailed) => l'.proc == l.proc.(pc := Finished(ReplayFailed))
       case Err(DecodeFailed) => l'.proc == l.proc.(pc := Finished(ReplayFailed))
       case Err(KeyConflict) => l'.proc == l.proc.(pc := Finished(Conflict))
       case Ok(None) => l'.proc == l.proc.(pc := Creating)
       case Ok(Some(replay)) =>
         && l'.proc == Advance(l.proc) && l'.log != []
         && var last := l'.log[|l'.log| - 1];
            && last.Replayed? && last.slot == SlotOf(l.proc)
            && ReadArtifact(l.store, replay.call.response) == Some(last.text) && DecodeIssue(last.text) == Some(replay.issue)
  }

  lemma LookFirst(l: Local, pid: nat, rest: seq<Choice>, look: Choice)
    requires Active(l.proc) && l.proc.pc == Lookup
    ensures Alone(l, pid, [look] + rest) == Alone(Moved(l, pid, look), pid, rest)
  {
    AloneOne(l, pid, look, rest);
  }

  /** The replay once a row is found and, if need be, its request document compared. */
  lemma AnswerAlone(l: Local, pid: nat, row: ToolCall, read: Choice)
    requires Active(l.proc) && l.proc.pc == Replaying(row, true)
    ensures var text, l' := ReadArtifact(l.store, row.response), Alone(l, pid, [read]);
            && l'.store == l.store
            && if read.Fault? || text.None? || DecodeIssue(text.value).None? then l'.proc == l.proc.(pc := Finished(ReplayFailed)) && l'.log == l.log
               else l'.proc == Advance(l.proc) && l'.log == l.log + [Replayed(SlotOf(l.proc), text.value)]
  {
    AloneOne(l, pid, read, []);
    assert [read] + [] == [read];
  }

  lemma CompareAlone(l: Local, pid: nat, row: ToolCall, read: Choice)
    requires Active(l.proc) && l.proc.pc == Replaying(row, false)
    ensures var text, l' := ReadArtifact(l.store, row.request), Moved(l, pid, read);
            && l'.store == l.store && l'.log == l.log
            && l'.proc == l.proc.(pc := if read.Fault? || text.None? then Finished(ReplayFailed)
                                        else if text.value == DocText(l.proc, DryRun, 0) then Replaying(row, true)
                                        else Finished(Conflict))
  {
  }

  /** Looking up and replaying by itself, the machine's request ends as the service's replay does: found
      or not, refused for a different request document, or failed. */
  lemma ReplayAlone(l: Local, pid: nat, env: Audit.ReplayEnv)
    requires Active(l.proc) && l.proc.pc == Lookup
    ensures ReplayEnds(l, Audit.ReplayEffect(l.store, SlotOf(l.proc), ExpectedOf(l.proc), env), Alone(l, pid, ReplayChoices(l, env)))
  {
    var look, read := if env.lookupOk then Go else Fault(""), if env.readOk then Go else Fault("");
    var found := LookupOk(l.store.calls, SlotOf(l.proc));
    var l1 := Moved(l, pid, look);
    if found.None? || !env.lookupOk {
      AloneOne(l, pid, look, []);
      assert [look] + [] == [look];
      AloneOne(l, pid, look, [read]);
      AloneOne(l, pid, look, [read] + [read]);
    } else if l.proc.req.checkRequest {
      LookFirst(l, pid, [read] + [read], look);
      CompareAlone(l1, pid, found.value, read);
      AloneOne(l1, pid, read, [read]);
      var l2 := Moved(l1, pid, read);
      if l2.proc.pc.Replaying? { AnswerAlone(l2, pid, found.value, read); }
    } else {
      LookFirst(l, pid, [read], look);
      AnswerAlone(l1, pid, found.value, read);
    }
  }

  // ---------- one save ----------

  function Removal(env: Audit.SaveEnv): Choice { if env.removeOk then Go else Fault("") }

  /** The choices that make the machine's save fare as the environment says. */
  function SaveChoices(env: Audit.SaveEnv): seq<Choice> {
    if !env.dirOk || !env.createOk then [Fault("")]
    else if !env.writeOk then [Go, Fault(env.partial), Removal(env)]
    else if !env.rowOk then [Go, Go, Fault(""), Removal(env)]
    else [Go, Go, Go]
  }

  function DocOf(p: Proc, o: Outcome, k: nat): Audit.Doc
    requires p.index < |p.req.items|
  {
    Audit.Doc(DocName(p, k), "application/json", DocText(p, o, k))
  }

  function AfterSaved(p: Proc, o: Outcome, saved: seq<Id>): Proc {
    p.(pc := if |saved| < 2 then Saving(o, saved, Fresh) else Inserting(o, saved))
  }

  ghost predicate Ready(st: Store, p: Proc) {
    && p.index < |p.req.items| && p.req.runID in st.runs
    && (forall id | id in st.artifacts :: id < st.nextID) && forall name | name in st.files :: name.id < st.nextID
  }

  /** What the machine's save comes to. */
  function SaveEnds(l: Local, o: Outcome, saved: seq<Id>, env: Audit.SaveEnv): Local
    requires l.proc.index < |l.proc.req.items| && Active(l.proc)
  {
    var (st, id) := Audit.SaveEffect(l.store, l.proc.req.runID, DocOf(l.proc, o, |saved|), env);
    if id.Some? then Local(st, AfterSaved(l.proc, o, saved + [id.value]), l.log)
    else Local(st, l.proc.(pc := Finished(RecordFailed)), l.log + [Lost(SlotOf(l.proc), OkOutcome(o))])
  }

  ghost predicate AtSave(l: Local, o: Outcome, saved: seq<Id>) {
    Ready(l.store, l.proc) && l.proc.pc == Saving(o, saved, Fresh) && |saved| < 2
  }

  function Opened(l: Local, o: Outcome, saved: seq<Id>): Local
    requires l.proc.index < |l.proc.req.items|
  {
    var id := l.store.nextID;
    Local(PutFile(DrawID(l.store), FileName(l.proc.req.runID, id), ""), l.proc.(pc := Saving(o, saved, Open(id))), l.log)
  }

  lemma OpenStep(l: Local, pid: nat, o: Outcome, saved: seq<Id>)
    requires AtSave(l, o, saved)
    ensures Moved(l, pid, Go) == Opened(l, o, saved)
  {
    assert l.log + [] == l.log;
  }

  lemma NoFile(l: Local, pid: nat, o: Outcome, saved: seq<Id>, env: Audit.SaveEnv)
    requires AtSave(l, o, saved) && (!env.dirOk || !env.createOk)
    ensures Alone(l, pid, SaveChoices(env)) == SaveEnds(l, o, saved, env)
  {
    AloneOne(l, pid, Fault(""), []);
    assert [Fault("")] + [] == [Fault("")];
  }

  lemma RemoveStep(l: Local, pid: nat, o: Outcome, saved: seq<Id>, id: Id, env: Audit.SaveEnv)
    requires Active(l.proc) && l.proc.pc == Saving(o, saved, Removing(id))
    ensures Alone(l, pid, [Removal(env)])
            == Local(Audit.Undo(l.store, FileName(l.proc.req.runID, id), env), l.proc.(pc := Finished(RecordFailed)),
                     l.log + [Lost(SlotOf(l.proc), OkOutcome(o))])
  {
    AloneOne(l, pid, Removal(env), []);
    assert [Removal(env)] + [] == [Removal(env)];
  }

  lemma WriteFailsAlone(l: Local, pid: nat, o: Outcome, saved: seq<Id>, env: Audit.SaveEnv)
    requires AtSave(l, o, saved) && env.dirOk && env.createOk && !env.writeOk
    ensures Alone(l, pid, SaveChoices(env)) == SaveEnds(l, o, saved, env)
  {
    var id := l.store.nextID;
    var l1 := Opened(l, o, saved);
    var failed := Local(PutFile(l1.store, FileName(l.proc.req.runID, id), env.partial), l.proc.(pc := Saving(o, saved, Removing(id))), l.log);
    OpenStep(l, pid, o, saved);
    assert Moved(l1, pid, Fault(env.partial)) == failed by { assert l.log + [] == l.log; }
    AloneOne(l, pid, Go, [Fault(env.partial), Removal(env)]);
    AloneOne(l1, pid, Fault(env.partial), [Removal(env)]);
    RemoveStep(failed, pid, o, saved, id, env);
    assert SaveChoices(env) == [Go] + [Fault(env.partial), Removal(env)];
    assert [Fault(env.partial)] + [Removal(env)] == [Fault(env.partial), Removal(env)];
  }

  function Filled(l: Local, o: Outcome, saved: seq<Id>): Local
    requires l.proc.index < |l.proc.req.items|
  {
    var id, l1 := l.store.nextID, Opened(l, o, saved);
    Local(PutFile(l1.store, FileName(l.proc.req.runID, id), DocText(l.proc, o, |saved|)), l.proc.(pc := Saving(o, saved, Full(id))), l.log)
  }

  lemma FillSteps(l: Local, pid: nat, o: Outcome, saved: seq<Id>, rest: seq<Choice>)
    requires AtSave(l, o, saved)
    ensures Alone(l, pid, [Go] + ([Go] + rest)) == Alone(Filled(l, o, saved), pid, rest)
  {
    var l1 := Opened(l, o, saved);
    OpenStep(l, pid, o, saved);
    assert Moved(l1, pid, Go) == Filled(l, o, saved) by { assert l.log + [] == l.log; }
    AloneOne(l, pid, Go, [Go] + rest);
    AloneOne(l1, pid, Go, rest);
  }

  lemma RowRefused(l: Local, pid: nat, o: Outcome, saved: seq<Id>)
    requires AtSave(l, o, saved)
    ensures Moved(Filled(l, o, saved), pid, Fault(""))
            == Local(Filled(l, o, saved).store, l.proc.(pc := Saving(o, saved, Removing(l.store.nextID))), l.log)
  {
    assert l.log + [] == l.log;
  }

  lemma RowFailsAlone(l: Local, pid: nat, o: Outcome, saved: seq<Id>, env: Audit.SaveEnv)
    requires AtSave(l, o, saved) && env.dirOk && env.createOk && env.writeOk && !env.rowOk
    ensures Alone(l, pid, SaveChoices(env)) == SaveEnds(l, o, saved, env)
  {
    var id, filled := l.store.nextID, Filled(l, o, saved);
    var failed := Local(filled.store, l.proc.(pc := Saving(o, saved, Removing(id))), l.log);
    RowRefused(l, pid, o, saved);
    FillSteps(l, pid, o, saved, [Fault(""), Removal(env)]);
    AloneOne(filled, pid, Fault(""), [Removal(env)]);
    RemoveStep(failed, pid, o, saved, id, env);
    assert SaveChoices(env) == [Go] + ([Go] + [Fault(""), Removal(env)]);
    assert [Fault("")] + [Removal(env)] == [Fault(""), Removal(env)];
  }

  lemma SavedAlone(l: Local, pid: nat, o: Outcome, saved: seq<Id>, env: Audit.SaveEnv)
    requires AtSave(l, o, saved) && Audit.Smooth(env)
    ensures Alone(l, pid, SaveChoices(env)) == SaveEnds(l, o, saved, env)
  {
    var id, filled := l.store.nextID, Filled(l, o, saved);
    assert Moved(filled, pid, Go) == SaveEnds(l, o, saved, env) by { assert l.log + [] == l.log; assert id !in filled.store.artifacts; }
    FillSteps(l, pid, o, saved, [Go]);
    AloneOne(filled, pid, Go, []);
    assert SaveChoices(env) == [Go] + ([Go] + [Go]) && [Go] + [] == [Go];
  }

  /** One save of the machine, by itself, is one save of the service. */
  lemma SaveAlone(l: Local, pid: nat, o: Outcome, saved: seq<Id>, env: Audit.SaveEnv)
    requires AtSave(l, o, saved)
    ensures Alone(l, pid, SaveChoices(env)) == SaveEnds(l, o, saved, env)
    ensures Ready(SaveEnds(l, o, saved, env).store, l.proc)
  {
    if !env.dirOk || !env.createOk { NoFile(l, pid, o, saved, env); }
    else if !env.writeOk { WriteFailsAlone(l, pid, o, saved, env); }
    else if !env.rowOk { RowFailsAlone(l, pid, o, saved, env); }
    else { SavedAlone(l, pid, o, saved, env); }
  }

  // ---------- one record ----------

  /** What the handler passes to `Record` for this outcome. */
  function InputOf(p: Proc, o: Outcome): Audit.RecordInput
    requires p.index < |p.req.items|
  {
    Audit.RecordInput(p.req.runID, p.req.toolName, Some(p.req.items[p.index].key), Some(DocText(p, o, 0)), Some(DocText(p, o, 1)),
                      o.GitHubError?, [])
  }

  function RecordChoices(env: Audit.RecordEnv): seq<Choice> {
    SaveChoices(Audit.EnvAt(env, 0)) + (SaveChoices(Audit.EnvAt(env, 1)) + [if env.insertOk then Go else Fault("")])
  }

  /** What the machine's record comes to, told by the service. */
  function RecordEnds(l: Local, o: Outcome, env: Audit.RecordEnv): Local
    requires l.proc.index < |l.proc.req.items|
  {
    var (st, r) := Audit.RecordEffect(true, l.store, InputOf(l.proc, o), env);
    match r
    case Err(_) => Local(st, l.proc.(pc := Finished(RecordFailed)), l.log + [Lost(SlotOf(l.proc), OkOutcome(o))])
    case Ok(recorded) =>
      Local(st, if o.GitHubError? && l.proc.req.strict then l.proc.(pc := Finished(Stopped)) else Advance(l.proc),
            l.log + [Inserted(recorded.call)])
  }

  lemma DocsAgree(p: Proc, o: Outcome)
    requires p.index < |p.req.items|
    ensures Audit.DocAt(InputOf(p, o), 0) == Some(DocOf(p, o, 0)) && Audit.DocAt(InputOf(p, o), 1) == Some(DocOf(p, o, 1))
    ensures Audit.DocCount(InputOf(p, o)) == 2
  {
  }

  /** The two saves as the service chains them. */
  lemma SaveFromTwice(l: Local, o: Outcome, env: Audit.RecordEnv)
    requires l.proc.index < |l.proc.req.items|
    ensures var input := InputOf(l.proc, o);
            var (st1, id1) := Audit.SaveEffect(l.store, l.proc.req.runID, DocOf(l.proc, o, 0), Audit.EnvAt(env, 0));
            var (st2, id2) := Audit.SaveEffect(st1, l.proc.req.runID, DocOf(l.proc, o, 1), Audit.EnvAt(env, 1));
            Audit.SaveFrom(l.store, input, env, 0)
            == if id1.None? then (st1, Some(Audit.SaveFailed)) else if id2.None? then (st2, Some(Audit.SaveFailed)) else (st2, None)
  {
    DocsAgree(l.proc, o);
    var input := InputOf(l.proc, o);
    var (st1, id1) := Audit.SaveEffect(l.store, l.proc.req.runID, DocOf(l.proc, o, 0), Audit.EnvAt(env, 0));
    var (st2, id2) := Audit.SaveEffect(st1, l.proc.req.runID, DocOf(l.proc, o, 1), Audit.EnvAt(env, 1));
    assert Audit.SaveFrom(st2, input, env, 2) == (st2, None);
    assert id1.Some? ==> Audit.SaveFrom(l.store, input, env, 0) == Audit.SaveFrom(st1, input, env, 1);
  }

  lemma SaveNames(st: Store, runID: string, doc: Audit.Doc, env: Audit.SaveEnv)
    ensures var (st', id) := Audit.SaveEffect(st, runID, doc, env);
            st'.nextID == st.nextID + 1 && (id.Some? ==> id.value == st.nextID && id.value in st'.artifacts)
    ensures var st' := Audit.SaveEffect(st, runID, doc, env).0; forall id | id in st.artifacts :: id in st'.artifacts
  {
  }

  /** Where a record whose two saves work ends. */
  function Inserts(l: Local, first: Id, st2: Store, o: Outcome, insertOk: bool): Local
    requires l.proc.index < |l.proc.req.items|
  {
    var call := Audit.CallFor(first, st2.nextID, InputOf(l.proc, o));
    if !insertOk || !CanInsertCall(DrawID(st2), call) then
      Local(DrawID(st2), l.proc.(pc := Finished(RecordFailed)), l.log + [Lost(SlotOf(l.proc), OkOutcome(o))])
    else
      Local(InsertCall(DrawID(st2), call),
            if o.GitHubError? && l.proc.req.strict then l.proc.(pc := Finished(Stopped)) else Advance(l.proc),
            l.log + [Inserted(call)])
  }

  /** The last step: the row. */
  lemma InsertAlone(l: Local, pid: nat, o: Outcome, first: Id, insertOk: bool)
    requires Active(l.proc) && l.proc.pc == Inserting(o, [first, first + 1])
    ensures Alone(l, pid, [if insertOk then Go else Fault("")]) == Inserts(l, first, l.store, o, insertOk)
  {
    var c := if insertOk then Go else Fault("");
    assert NewCall(l.store, l.proc, o, [first, first + 1]) == Audit.CallFor(first, l.store.nextID, InputOf(l.proc, o));
    AloneOne(l, pid, c, []);
    assert [c] + [] == [c];
  }

  lemma FinishedAlone(l: Local, pid: nat, choices: seq<Choice>)
    requires l.proc.pc.Finished?
    ensures Alone(l, pid, choices) == l
  {
  }

  lemma SecondSaveAlone(l0: Local, l: Local, pid: nat, o: Outcome, env: Audit.RecordEnv)
    requires l0.proc.index < |l0.proc.req.items| && l.proc == l0.proc.(pc := Saving(o, [l0.store.nextID], Fresh)) && l.log == l0.log
    requires Ready(l.store, l.proc) && l.store.nextID == l0.store.nextID + 1
    ensures var (st2, id2) := Audit.SaveEffect(l.store, l.proc.req.runID, DocOf(l0.proc, o, 1), Audit.EnvAt(env, 1));
            Alone(l, pid, SaveChoices(Audit.EnvAt(env, 1)))
            == if id2.Some? then Local(st2, l0.proc.(pc := Inserting(o, [l0.store.nextID, l0.store.nextID + 1])), l0.log)
               else Local(st2, l0.proc.(pc := Finished(RecordFailed)), l0.log + [Lost(SlotOf(l0.proc), OkOutcome(o))])
  {
    SaveAlone(l, pid, o, [l0.store.nextID], Audit.EnvAt(env, 1));
    SaveNames(l.store, l.proc.req.runID, DocOf(l0.proc, o, 1), Audit.EnvAt(env, 1));
    assert [l0.store.nextID] + [l0.store.nextID + 1] == [l0.store.nextID, l0.store.nextID + 1];
  }

  lemma FirstSaveFails(l: Local, pid: nat, o: Outcome, env: Audit.RecordEnv)
    requires AtSave(l, o, []) && Audit.SaveEffect(l.store, l.proc.req.runID, DocOf(l.proc, o, 0), Audit.EnvAt(env, 0)).1.None?
    ensures Alone(l, pid, RecordChoices(env)) == RecordEnds(l, o, env)
  {
    var rest := SaveChoices(Audit.EnvAt(env, 1)) + [if env.insertOk then Go else Fault("")];
    SaveAlone(l, pid, o, [], Audit.EnvAt(env, 0));
    AloneAppend(l, pid, SaveChoices(Audit.EnvAt(env, 0)), rest);
    FinishedAlone(SaveEnds(l, o, [], Audit.EnvAt(env, 0)), pid, rest);
    SaveFromTwice(l, o, env);
  }

  lemma SecondSaveFails(l: Local, l1: Local, pid: nat, o: Outcome, env: Audit.RecordEnv)
    requires AtSave(l, o, []) && Audit.SaveEffect(l.store, l.proc.req.runID, DocOf(l.proc, o, 0), Audit.EnvAt(env, 0)) == (l1.store, Some(l.store.nextID))
    requires l1 == Local(l1.store, l.proc.(pc := Saving(o, [l.store.nextID], Fresh)), l.log)
    requires Ready(l1.store, l1.proc) && l1.store.nextID == l.store.nextID + 1
    requires Audit.SaveEffect(l1.store, l.proc.req.runID, DocOf(l.proc, o, 1), Audit.EnvAt(env, 1)).1.None?
    ensures Alone(l1, pid, SaveChoices(Audit.EnvAt(env, 1)) + [if env.insertOk then Go else Fault("")]) == RecordEnds(l, o, env)
  {
    var c := if env.insertOk then Go else Fault("");
    SecondSaveAlone(l, l1, pid, o, env);
    AloneAppend(l1, pid, SaveChoices(Audit.EnvAt(env, 1)), [c]);
    FinishedAlone(Alone(l1, pid, SaveChoices(Audit.EnvAt(env, 1))), pid, [c]);
    SaveFromTwice(l, o, env);
  }

  lemma TwoSavesThenInsert(l: Local, o: Outcome, env: Audit.RecordEnv)
    requires l.proc.index < |l.proc.req.items|
    ensures var (st1, id1) := Audit.SaveEffect(l.store, l.proc.req.runID, DocOf(l.proc, o, 0), Audit.EnvAt(env, 0));
            var (st2, id2) := Audit.SaveEffect(st1, l.proc.req.runID, DocOf(l.proc, o, 1), Audit.EnvAt(env, 1));
            id1.Some? && id2.Some? ==> RecordEnds(l, o, env) == Inserts(l, l.store.nextID, st2, o, env.insertOk)
  {
    SaveFromTwice(l, o, env);
  }

  lemma BothSaved(l: Local, l1: Local, st2: Store, pid: nat, o: Outcome, env: Audit.RecordEnv)
    requires AtSave(l, o, []) && Audit.SaveEffect(l.store, l.proc.req.runID, DocOf(l.proc, o, 0), Audit.EnvAt(env, 0)) == (l1.store, Some(l.store.nextID))
    requires l1 == Local(l1.store, l.proc.(pc := Saving(o, [l.store.nextID], Fresh)), l.log)
    requires Ready(l1.store, l1.proc) && l1.store.nextID == l.store.nextID + 1
    requires Audit.SaveEffect(l1.store, l.proc.req.runID, DocOf(l.proc, o, 1), Audit.EnvAt(env, 1)) == (st2, Some(l.store.nextID + 1))
    ensures Alone(l1, pid, SaveChoices(Audit.EnvAt(env, 1)) + [if env.insertOk then Go else Fault("")]) == RecordEnds(l, o, env)
  {
    SaveThenInsert(l, l1, st2, pid, o, env);
    TwoSavesThenInsert(l, o, env);
  }

  lemma SaveThenInsert(l: Local, l1: Local, st2: Store, pid: nat, o: Outcome, env: Audit.RecordEnv)
    requires l.proc.index < |l.proc.req.items| && l1 == Local(l1.store, l.proc.(pc := Saving(o, [l.store.nextID], Fresh)), l.log)
    requires Ready(l1.store, l1.proc) && l1.store.nextID == l.store.nextID + 1
    requires Audit.SaveEffect(l1.store, l.proc.req.runID, DocOf(l.proc, o, 1), Audit.EnvAt(env, 1)) == (st2, Some(l.store.nextID + 1))
    ensures Alone(l1, pid, SaveChoices(Audit.EnvAt(env, 1)) + [if env.insertOk then Go else Fault("")])
            == Inserts(l, l.store.nextID, st2, o, env.insertOk)
  {
    var first, c := l.store.nextID, if env.insertOk then Go else Fault("");
    var l2 := Local(st2, l.proc.(pc := Inserting(o, [first, first + 1])), l.log);
    SecondSaveAlone(l, l1, pid, o, env);
    AloneAppend(l1, pid, SaveChoices(Audit.EnvAt(env, 1)), [c]);
    assert Alone(l1, pid, SaveChoices(Audit.EnvAt(env, 1)) + [c]) == Alone(l2, pid, [c]);
    InsertAlone(l2, pid, o, first, env.insertOk);
  }

  lemma FirstSaveWorks(l: Local, pid: nat, o: Outcome, env: Audit.RecordEnv) returns (l1: Local)
    requires AtSave(l, o, []) && Audit.SaveEffect(l.store, l.proc.req.runID, DocOf(l.proc, o, 0), Audit.EnvAt(env, 0)).1.Some?
    ensures Audit.SaveEffect(l.store, l.proc.req.runID, DocOf(l.proc, o, 0), Audit.EnvAt(env, 0)) == (l1.store, Some(l.store.nextID))
    ensures l1 == Local(l1.store, l.proc.(pc := Saving(o, [l.store.nextID], Fresh)), l.log)
    ensures Ready(l1.store, l1.proc) && l1.store.nextID == l.store.nextID + 1
    ensures Alone(l, pid, RecordChoices(env))
            == Alone(l1, pid, SaveChoices(Audit.EnvAt(env, 1)) + [if env.insertOk then Go else Fault("")])
  {
    SaveNames(l.store, l.proc.req.runID, DocOf(l.proc, o, 0), Audit.EnvAt(env, 0));
    SaveAlone(l, pid, o, [], Audit.EnvAt(env, 0));
    l1 := SaveEnds(l, o, [], Audit.EnvAt(env, 0));
    assert [] + [l.store.nextID] == [l.store.nextID];
    AloneAppend(l, pid, SaveChoices(Audit.EnvAt(env, 0)), SaveChoices(Audit.EnvAt(env, 1)) + [if env.insertOk then Go else Fault("")]);
  }

  /** Recording by itself, the machine's request ends as the service's `Record` does: same storage, same
      verdict, same row. */
  lemma RecordAlone(l: Local, pid: nat, o: Outcome, env: Audit.RecordEnv)
    requires AtSave(l, o, [])
    ensures Alone(l, pid, RecordChoices(env)) == RecordEnds(l, o, env)
  {
    if Audit.SaveEffect(l.store, l.proc.req.runID, DocOf(l.proc, o, 0), Audit.EnvAt(env, 0)).1.None? {
      FirstSaveFails(l, pid, o, env);
    } else {
      var l1 := FirstSaveWorks(l, pid, o, env);
      var (st2, id2) := Audit.SaveEffect(l1.store, l.proc.req.runID, DocOf(l.proc, o, 1), Audit.EnvAt(env, 1));
      SaveNames(l1.store, l.proc.req.runID, DocOf(l.proc, o, 1), Audit.EnvAt(env, 1));
      if id2.None? { SecondSaveFails(l, l1, pid, o, env); } else { BothSaved(l, l1, st2, pid, o, env); }
    }
  }

  /** Every file and row identifier of a reachable system has been drawn. */
  lemma ReachableIsReady(runs: set<string>, events: seq<Event>, pid: nat)
    requires pid < |Run(Init(runs), events).procs|
    ensures var s := Run(Init(runs), events); Ready(s.store, s.procs[pid])
  {
    EvidenceAlways(runs, events);
    var s := Run(Init(runs), events);
    assert ProcOk(s.store, s.procs[pid]);
    Audit.DrawnIdentifiers(s.store);
  }

  /** Main result: in every reachable system, for every request about to record an outcome, among however
      many others, and every way its writes may fare, the machine has a continuation in which only that
      request moves and which leaves exactly the storage the service's `Record` leaves, with the same
      verdict and the same row logged. */
  lemma MachineRefinesService(runs: set<string>, events: seq<Event>, pid: nat, o: Outcome, env: Audit.RecordEnv)
    returns (more: seq<Event>)
    requires pid < |Run(Init(runs), events).procs| && Run(Init(runs), events).procs[pid].pc == Saving(o, [], Fresh)
    ensures var s := Run(Init(runs), events);
            && s.procs[pid].index < |s.procs[pid].req.items|
            && var l := RecordEnds(Local(s.store, s.procs[pid], s.log), o, env);
               Run(Init(runs), events + more) == System(l.store, s.procs[pid := l.proc], l.log)
  {
    var s := Run(Init(runs), events);
    ReachableIsReady(runs, events, pid);
    RecordAlone(Local(s.store, s.procs[pid], s.log), pid, o, env);
    more := AloneInSystem(s, pid, RecordChoices(env));
    RunAppend(Init(runs), events, more);
  }
}

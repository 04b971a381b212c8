/** What holds in every reachable state of the protocol, whatever the interleaving and whatever fails. */
module ProtocolProofs {
  import opened Wrappers
  import opened Hash
  import opened IssueExchange
  import opened Store
  import opened Protocol

  // ---------- evidence: local invariant ----------

  /** The artifact being written, not yet in the table. */
  function Owned(pc: Pc): Option<Id> {
    if pc.Saving? && !pc.phase.Fresh? then Some(pc.phase.id) else None
  }

  ghost predicate SavedOk(st: Store, p: Proc, o: Outcome, saved: seq<Id>)
    requires p.index < |p.req.items|
  {
    forall k | 0 <= k < |saved| ::
      && saved[k] in st.artifacts && st.artifacts[saved[k]].runID == p.req.runID
      && FileName(p.req.runID, saved[k]) in st.files
      && Content(st, saved[k]) == DocText(p, o, k)
  }

  ghost predicate ProcOk(st: Store, p: Proc) {
    && p.req.runID in st.runs && p.index < |p.req.items|
    && match p.pc
       case Replaying(row, _) => row in st.calls && OkFor(row, SlotOf(p))
       case Saving(o, saved, phase) =>
         && |saved| < 2 && SavedOk(st, p, o, saved)
         && (Owned(p.pc).Some? ==> phase.id < st.nextID && phase.id !in st.artifacts)
         && (phase.Full? ==> FileName(p.req.runID, phase.id) in st.files
                             && st.files[FileName(p.req.runID, phase.id)] == DocText(p, o, |saved|))
       case Inserting(o, saved) => |saved| == 2 && SavedOk(st, p, o, saved)
       case _ => true
  }

  /** Effects stay within the request's own unfinished artifact. */
  ghost predicate Framed(st: Store, st': Store, own: Option<Id>) {
    && (forall name: FileName | name in st.files && own != Some(name.id) && name.id < st.nextID ::
          name in st'.files && st'.files[name] == st.files[name])
    && (forall id | id in st'.artifacts :: id in st.artifacts || own == Some(id))
  }

  ghost predicate LocalSafe(st: Store, p: Proc, l: Local) {
    && Backed(l.store) && Extends(st, l.store)
    && l.proc.req == p.req && ProcOk(l.store, l.proc)
    && Framed(st, l.store, Owned(p.pc))
    && (Owned(l.proc.pc) == None || Owned(l.proc.pc) == Owned(p.pc)
        || (Owned(l.proc.pc) == Some(st.nextID) && st.nextID < l.store.nextID))
  }

  lemma SavedOkExtends(st: Store, st': Store, p: Proc, o: Outcome, saved: seq<Id>)
    requires p.index < |p.req.items| && SavedOk(st, p, o, saved) && Extends(st, st')
    ensures SavedOk(st', p, o, saved)
  {
    forall k | 0 <= k < |saved| ensures saved[k] in st'.artifacts && st'.artifacts[saved[k]].runID == p.req.runID
                                        && FileName(p.req.runID, saved[k]) in st'.files
                                        && Content(st', saved[k]) == DocText(p, o, k)
    {
      assert saved[k] in st.artifacts && st.artifacts[saved[k]].runID == p.req.runID;
      assert FileName(st.artifacts[saved[k]].runID, saved[k]) in st.files;
    }
  }

  lemma DrawSafe(st: Store)
    requires Backed(st)
    ensures Backed(DrawID(st)) && Extends(st, DrawID(st))
    ensures forall id | id in st.artifacts :: id < st.nextID
  {
    DrawIDKeepsBacked(st);
    forall id | id in st.artifacts ensures id < st.nextID { assert ArtifactBacked(st, id); }
  }

  lemma SavingFreshSafe(st: Store, p: Proc, choice: Choice)
    requires Backed(st) && ProcOk(st, p) && Active(p) && p.pc.Saving? && p.pc.phase.Fresh?
    ensures LocalSafe(st, p, StepSaving(st, p, choice))
  {
    DrawSafe(st);
    var drawn := DrawID(st);
    var name := FileName(p.req.runID, st.nextID);
    PutFileKeepsBacked(drawn, name, "");
    ExtendsTransitive(st, drawn, PutFile(drawn, name, ""));
    SavedOkExtends(st, PutFile(drawn, name, ""), p, p.pc.outcome, p.pc.saved);
    SavedOkExtends(st, drawn, p, p.pc.outcome, p.pc.saved);
  }

  lemma SavingOpenSafe(st: Store, p: Proc, choice: Choice)
    requires Backed(st) && ProcOk(st, p) && Active(p) && p.pc.Saving? && p.pc.phase.Open?
    ensures LocalSafe(st, p, StepSaving(st, p, choice))
  {
    var name := FileName(p.req.runID, p.pc.phase.id);
    var bytes := if choice.Fault? then choice.partial else DocText(p, p.pc.outcome, |p.pc.saved|);
    PutFileKeepsBacked(st, name, bytes);
    SavedOkExtends(st, PutFile(st, name, bytes), p, p.pc.outcome, p.pc.saved);
  }

  lemma SavingRemovingSafe(st: Store, p: Proc, choice: Choice)
    requires Backed(st) && ProcOk(st, p) && Active(p) && p.pc.Saving? && p.pc.phase.Removing?
    ensures LocalSafe(st, p, StepSaving(st, p, choice))
  {
    RemoveFileKeepsBacked(st, FileName(p.req.runID, p.pc.phase.id));
  }

  lemma SavingFullSafe(st: Store, p: Proc, choice: Choice)
    requires Backed(st) && ProcOk(st, p) && Active(p) && p.pc.Saving? && p.pc.phase.Full?
    ensures LocalSafe(st, p, StepSaving(st, p, choice))
  {
    var o, saved, id := p.pc.outcome, p.pc.saved, p.pc.phase.id;
    var text := DocText(p, o, |saved|);
    var row := ArtifactRow(p.req.runID, DocName(p, |saved|), Sha256(text), |text|, "application/json");
    if !choice.Fault? && CanInsertArtifact(st, id, row) {
      var st' := InsertArtifact(st, id, row);
      InsertArtifactKeepsBacked(st, id, row);
      SavedOkExtends(st, st', p, o, saved);
      SavedOkAppend(st', p, o, saved, id);
    }
  }

  lemma SavedOkAppend(st: Store, p: Proc, o: Outcome, saved: seq<Id>, id: Id)
    requires p.index < |p.req.items| && SavedOk(st, p, o, saved)
    requires id in st.artifacts && st.artifacts[id].runID == p.req.runID
    requires FileName(p.req.runID, id) in st.files && Content(st, id) == DocText(p, o, |saved|)
    ensures SavedOk(st, p, o, saved + [id])
  {
  }

  lemma InsertingSafe(st: Store, p: Proc, choice: Choice)
    requires Backed(st) && ProcOk(st, p) && Active(p) && p.pc.Inserting?
    ensures LocalSafe(st, p, StepInserting(st, p, choice))
  {
    var o, saved := p.pc.outcome, p.pc.saved;
    var c := NewCall(st, p, o, saved);
    var drawn := DrawID(st);
    DrawSafe(st);
    if !choice.Fault? && CanInsertCall(drawn, c) {
      SavedOkExtends(st, drawn, p, o, saved);
      assert Content(drawn, saved[0]) == DocText(p, o, 0) && Content(drawn, saved[1]) == DocText(p, o, 1);
      assert CallBacked(drawn, c);
      InsertCallKeepsBacked(drawn, c);
      ExtendsTransitive(st, drawn, InsertCall(drawn, c));
    }
  }

  lemma ReadingSafe(st: Store, p: Proc, l: Local)
    requires Backed(st) && l.store == st && l.proc.req == p.req && ProcOk(st, l.proc) && Owned(l.proc.pc) == None
    ensures LocalSafe(st, p, l)
  {
  }

  lemma LookupSafe(st: Store, pid: nat, p: Proc, choice: Choice)
    requires ProcOk(st, p) && Active(p)
    ensures var l := StepLookup(st, pid, p, choice); l.store == st && l.proc.req == p.req && ProcOk(st, l.proc) && Owned(l.proc.pc) == None
  {
    LookupMeaning(st.calls, SlotOf(p));
  }

  lemma ReplayingSafe(st: Store, p: Proc, choice: Choice)
    requires ProcOk(st, p) && Active(p) && p.pc.Replaying?
    ensures var l := StepReplaying(st, p, choice); l.store == st && l.proc.req == p.req && ProcOk(st, l.proc) && Owned(l.proc.pc) == None
  {
  }

  /** Steps that only read storage or talk to GitHub. */
  lemma QuietSafe(st: Store, pid: nat, p: Proc, choice: Choice)
    requires Backed(st) && ProcOk(st, p) && Active(p) && !p.pc.Saving? && !p.pc.Inserting?
    ensures LocalSafe(st, p, StepProc(st, pid, p, choice))
  {
    match p.pc
    case Lookup => LookupSafe(st, pid, p, choice); ReadingSafe(st, p, StepLookup(st, pid, p, choice));
    case Replaying(_, _) => ReplayingSafe(st, p, choice); ReadingSafe(st, p, StepReplaying(st, p, choice));
    case Creating => ReadingSafe(st, p, StepCreating(st, pid, p));
    case Awaiting => ReadingSafe(st, p, StepAwaiting(st, pid, p, choice));
  }

  lemma SavingSafe(st: Store, p: Proc, choice: Choice)
    requires Backed(st) && ProcOk(st, p) && Active(p) && p.pc.Saving?
    ensures LocalSafe(st, p, StepSaving(st, p, choice))
  {
    match p.pc.phase
    case Fresh => SavingFreshSafe(st, p, choice);
    case Full(_) => SavingFullSafe(st, p, choice);
    case Open(_) => SavingOpenSafe(st, p, choice);
    case Removing(_) => SavingRemovingSafe(st, p, choice);
  }

  lemma StepSafe(st: Store, pid: nat, p: Proc, choice: Choice)
    requires Backed(st) && ProcOk(st, p) && Active(p)
    ensures LocalSafe(st, p, StepProc(st, pid, p, choice))
  {
    if p.pc.Saving? {
      SavingSafe(st, p, choice);
      assert StepProc(st, pid, p, choice) == StepSaving(st, p, choice);
    } else if p.pc.Inserting? {
      InsertingSafe(st, p, choice);
      assert StepProc(st, pid, p, choice) == StepInserting(st, p, choice);
    } else {
      QuietSafe(st, pid, p, choice);
    }
  }

  /** One request's step does not disturb another request's work in progress. */
  lemma OthersUndisturbed(st: Store, st': Store, own: Option<Id>, q: Proc)
    requires Backed(st) && Extends(st, st') && Framed(st, st', own)
    requires ProcOk(st, q) && (Owned(q.pc) == None || Owned(q.pc) != own)
    ensures ProcOk(st', q)
  {
    match q.pc
    case Saving(o, saved, phase) => SavedOkExtends(st, st', q, o, saved);
    case Inserting(o, saved) => SavedOkExtends(st, st', q, o, saved);
    case _ =>
  }

  ghost predicate NoSharedFiles(procs: seq<Proc>) {
    forall i, j | 0 <= i < j < |procs| :: Owned(procs[i].pc).Some? ==> Owned(procs[i].pc) != Owned(procs[j].pc)
  }

  ghost predicate EvidenceInv(s: System) {
    && Sound(s.store)
    && (forall i | 0 <= i < |s.procs| :: ProcOk(s.store, s.procs[i]))
    && NoSharedFiles(s.procs)
  }

  /** Only files under drawn identifiers are ever written. */
  lemma StepKeepsDrawn(st: Store, pid: nat, p: Proc, choice: Choice)
    requires FilesDrawn(st) && ProcOk(st, p) && Active(p)
    ensures FilesDrawn(StepProc(st, pid, p, choice).store)
  {
  }

  lemma NextKeepsEvidence(s: System, e: Event)
    requires EvidenceInv(s)
    ensures EvidenceInv(Next(s, e)) && Extends(s.store, Next(s, e).store)
  {
    if e.Act? && e.pid < |s.procs| && Active(s.procs[e.pid]) {
      var p := s.procs[e.pid];
      assert ProcOk(s.store, p);
      var l := StepProc(s.store, e.pid, p, e.choice);
      StepSafe(s.store, e.pid, p, e.choice);
      StepKeepsDrawn(s.store, e.pid, p, e.choice);
      forall i | 0 <= i < |s.procs| && i != e.pid
        ensures ProcOk(l.store, s.procs[i])
        ensures Owned(s.procs[i].pc).Some? ==> Owned(s.procs[i].pc) != Owned(l.proc.pc)
      {
        assert ProcOk(s.store, s.procs[i]);
        assert Owned(p.pc).Some? ==> Owned(p.pc) != Owned(s.procs[i].pc);
        OthersUndisturbed(s.store, l.store, Owned(p.pc), s.procs[i]);
      }
    }
  }

  lemma InitEvidence(runs: set<string>)
    ensures EvidenceInv(Init(runs))
  {
  }

  lemma {:induction false} EvidenceAlways(runs: set<string>, events: seq<Event>)
    ensures EvidenceInv(Run(Init(runs), events))
  {
    if events == [] {
      InitEvidence(runs);
    } else {
      EvidenceAlways(runs, events[..|events| - 1]);
      NextKeepsEvidence(Run(Init(runs), events[..|events| - 1]), events[|events| - 1]);
    }
  }
}

/** The protocol's laws over whole histories: conservation of outcomes, at-most-once creation,
    no creation after a recorded success, append-only evidence, and what replays return. */
module ProtocolLaws {
  import opened Wrappers
  import opened Json
  import opened IssueExchange
  import opened Store
  import opened Protocol
  import opened ProtocolProofs

  // ---------- conservation ----------

  datatype Tally = OkOutcomes | LostAfterOk | Creations

  predicate Counts(e: Entry, tally: Tally, slot: Slot) {
    match tally
    case OkOutcomes => e.Got? && OkOutcome(e.outcome) && e.slot == slot
    case LostAfterOk => e.Lost? && e.ok && e.slot == slot
    case Creations => e.Got? && e.outcome.Created? && e.slot == slot
  }

  function Count(log: seq<Entry>, tally: Tally, slot: Slot): nat {
    if log == [] then 0
    else Count(log[..|log| - 1], tally, slot) + if Counts(log[|log| - 1], tally, slot) then 1 else 0
  }

  /** An attempt that has its ok outcome but has not finished recording it. */
  predicate InFlight(p: Proc, slot: Slot) {
    && (p.pc.Saving? || p.pc.Inserting?) && OkOutcome(p.pc.outcome)
    && p.index < |p.req.items| && SlotOf(p) == slot
  }

  function Flying(procs: seq<Proc>, slot: Slot): nat {
    if procs == [] then 0
    else Flying(procs[..|procs| - 1], slot) + if InFlight(procs[|procs| - 1], slot) then 1 else 0
  }

  function One(b: bool): nat { if b then 1 else 0 }

  lemma CountAppend(log: seq<Entry>, more: seq<Entry>, tally: Tally, slot: Slot)
    requires |more| <= 1
    ensures Count(log + more, tally, slot) == Count(log, tally, slot) + Count(more, tally, slot)
  {
    if more == [] {
      assert log + more == log;
    } else {
      assert (log + more)[..|log|] == log && more[..0] == [];
    }
  }

  lemma {:induction false} FlyingUpdate(procs: seq<Proc>, i: nat, p: Proc, slot: Slot)
    requires i < |procs|
    ensures Flying(procs[i := p], slot) + One(InFlight(procs[i], slot)) == Flying(procs, slot) + One(InFlight(p, slot))
  {
    var k := |procs| - 1;
    if i == k {
      assert procs[i := p][..k] == procs[..k];
    } else {
      assert procs[i := p][..k] == procs[..k][i := p];
      FlyingUpdate(procs[..k], i, p, slot);
    }
  }

  lemma FlyingAppend(procs: seq<Proc>, p: Proc, slot: Slot)
    ensures Flying(procs + [p], slot) == Flying(procs, slot) + One(InFlight(p, slot))
  {
    assert (procs + [p])[..|procs|] == procs;
  }

  ghost predicate Balanced(st: Store, p: Proc, l: Local, slot: Slot) {
    && |l.log| <= 1
    && Count(l.log, OkOutcomes, slot) + One(InFlight(p, slot)) + OkRows(st.calls, slot)
       == OkRows(l.store.calls, slot) + Count(l.log, LostAfterOk, slot) + One(InFlight(l.proc, slot))
  }

  lemma CountSingle(e: Entry, tally: Tally, slot: Slot)
    ensures Count([e], tally, slot) == One(Counts(e, tally, slot))
    ensures Count([], tally, slot) == 0
  {
    assert [e][..0] == [];
  }

  lemma SavingBalance(st: Store, p: Proc, choice: Choice, slot: Slot)
    requires Active(p) && p.pc.Saving?
    ensures Balanced(st, p, StepSaving(st, p, choice), slot)
  {
    CountSingle(Lost(SlotOf(p), OkOutcome(p.pc.outcome)), OkOutcomes, slot);
    CountSingle(Lost(SlotOf(p), OkOutcome(p.pc.outcome)), LostAfterOk, slot);
  }

  lemma InsertingBalance(st: Store, p: Proc, choice: Choice, slot: Slot)
    requires Active(p) && p.pc.Inserting? && |p.pc.saved| == 2
    ensures Balanced(st, p, StepInserting(st, p, choice), slot)
  {
    var c := NewCall(st, p, p.pc.outcome, p.pc.saved);
    OkRowsAppend(st.calls, c, slot);
    CountSingle(Lost(SlotOf(p), OkOutcome(p.pc.outcome)), OkOutcomes, slot);
    CountSingle(Lost(SlotOf(p), OkOutcome(p.pc.outcome)), LostAfterOk, slot);
    CountSingle(Inserted(c), OkOutcomes, slot);
    CountSingle(Inserted(c), LostAfterOk, slot);
  }

  lemma LookingBalance(st: Store, pid: nat, p: Proc, choice: Choice, slot: Slot)
    requires Active(p) && !p.pc.Saving? && !p.pc.Inserting?
    ensures Balanced(st, p, StepProc(st, pid, p, choice), slot)
  {
    var l := StepProc(st, pid, p, choice);
    if l.log != [] {
      CountSingle(l.log[0], OkOutcomes, slot);
      CountSingle(l.log[0], LostAfterOk, slot);
      assert l.log == [l.log[0]];
    }
  }

  /** One local step moves an ok outcome between the four places it can be, and loses none. */
  lemma StepBalance(st: Store, pid: nat, p: Proc, choice: Choice, slot: Slot)
    requires Active(p) && (p.pc.Inserting? ==> |p.pc.saved| == 2)
    ensures Balanced(st, p, StepProc(st, pid, p, choice), slot)
  {
    if p.pc.Saving? { SavingBalance(st, p, choice, slot); }
    else if p.pc.Inserting? { InsertingBalance(st, p, choice, slot); }
    else { LookingBalance(st, pid, p, choice, slot); }
  }

  /** Attempts that got an ok or dry-run outcome are recorded, lost by a failed `Record`, or still being recorded. */
  ghost predicate Conserved(s: System, slot: Slot) {
    Count(s.log, OkOutcomes, slot) == OkRows(s.store.calls, slot) + Count(s.log, LostAfterOk, slot) + Flying(s.procs, slot)
  }

  lemma ActConserves(s: System, pid: nat, choice: Choice, slot: Slot)
    requires Conserved(s, slot) && pid < |s.procs| && Active(s.procs[pid]) && (s.procs[pid].pc.Inserting? ==> |s.procs[pid].pc.saved| == 2)
    ensures Conserved(Next(s, Act(pid, choice)), slot)
  {
    var l := StepProc(s.store, pid, s.procs[pid], choice);
    StepBalance(s.store, pid, s.procs[pid], choice, slot);
    FlyingUpdate(s.procs, pid, l.proc, slot);
    CountAppend(s.log, l.log, OkOutcomes, slot);
    CountAppend(s.log, l.log, LostAfterOk, slot);
  }

  lemma NextConserves(s: System, e: Event, slot: Slot)
    requires Conserved(s, slot)
    ensures Conserved(Next(s, e), slot)
  {
    match e
    case Arrive(req) => FlyingAppend(s.procs, Proc(req, 0, Lookup), slot);
    case Act(pid, choice) =>
      if pid < |s.procs| && Active(s.procs[pid]) && (s.procs[pid].pc.Inserting? ==> |s.procs[pid].pc.saved| == 2) {
        ActConserves(s, pid, choice, slot);
      }
  }

  /** Main result: in every reachable state, for every slot, ok outcomes are conserved and there is
      at most one ok row. */
  lemma {:induction false} OutcomesConserved(runs: set<string>, events: seq<Event>, slot: Slot)
    ensures var s := Run(Init(runs), events);
            Conserved(s, slot) && OkRows(s.store.calls, slot) <= 1
  {
    if events != [] {
      OutcomesConserved(runs, events[..|events| - 1], slot);
      NextConserves(Run(Init(runs), events[..|events| - 1]), events[|events| - 1], slot);
    }
    EvidenceAlways(runs, events);
  }

  lemma {:induction false} CreationsAreOutcomes(log: seq<Entry>, slot: Slot)
    ensures Count(log, Creations, slot) <= Count(log, OkOutcomes, slot)
  {
    if log != [] { CreationsAreOutcomes(log[..|log| - 1], slot); }
  }

  /** Main result, at-most-once creation: in every reachable state, whatever has crashed where, a slot's
      issue was created at most once plus once per `Record` that failed after a success plus once per
      success still being recorded. */
  lemma CreatedAtMostOnce(runs: set<string>, events: seq<Event>, slot: Slot)
    ensures var s := Run(Init(runs), events);
            Count(s.log, Creations, slot) <= 1 + Count(s.log, LostAfterOk, slot) + Flying(s.procs, slot)
  {
    OutcomesConserved(runs, events, slot);
    CreationsAreOutcomes(Run(Init(runs), events).log, slot);
  }

  /** Where every record was completed, at most once. */
  lemma CreatedOnceWhenRecorded(runs: set<string>, events: seq<Event>, slot: Slot)
    ensures var s := Run(Init(runs), events);
            Flying(s.procs, slot) == 0 && Count(s.log, LostAfterOk, slot) == 0 ==> Count(s.log, Creations, slot) <= 1
  {
    CreatedAtMostOnce(runs, events, slot);
  }

  // ---------- no creation after a recorded success ----------

  predicate SawOk(e: Entry, pid: nat, index: nat) {
    e.Looked? && e.pid == pid && e.index == index && e.sawOk
  }

  /** Entries are about a request's current item, once looked up, or an earlier one. */
  predicate PlacedIn(procs: seq<Proc>, e: Entry) {
    e.Looked? || e.Started? ==>
      && e.pid < |procs|
      && (e.index < procs[e.pid].index || (e.index == procs[e.pid].index && !procs[e.pid].pc.Lookup?))
  }

  ghost predicate Placed(s: System) {
    forall k | 0 <= k < |s.log| :: PlacedIn(s.procs, s.log[k])
  }

  /** A request about to create saw no ok row for its item. */
  ghost predicate CreatorsSawNone(s: System) {
    forall k, pid | 0 <= k < |s.log| && 0 <= pid < |s.procs| && s.procs[pid].pc.Creating? ::
      !SawOk(s.log[k], pid, s.procs[pid].index)
  }

  /** No item both saw an ok row and started a creation. */
  ghost predicate StartersSawNone(s: System) {
    forall k, m | 0 <= k < |s.log| && 0 <= m < |s.log| && s.log[m].Started? ::
      !SawOk(s.log[k], s.log[m].pid, s.log[m].index)
  }

  /** Recorded calls are in the table, and every later lookup of their slot sees one. */
  ghost predicate RecordsSeen(s: System) {
    && (forall k | 0 <= k < |s.log| && s.log[k].Inserted? :: s.log[k].call in s.store.calls)
    && (forall k, m | 0 <= k < m < |s.log| && s.log[k].Inserted? && s.log[m].Looked?
                      && OkFor(s.log[k].call, s.log[m].slot) :: s.log[m].sawOk)
  }

  /** Replayed texts are response documents of ok rows of the slot. */
  ghost predicate ReplaysSourced(s: System) {
    forall k | 0 <= k < |s.log| && s.log[k].Replayed? :: ReplaySource(s.store, s.log[k])
  }

  ghost predicate TraceInv(s: System) {
    Placed(s) && CreatorsSawNone(s) && StartersSawNone(s) && RecordsSeen(s) && ReplaysSourced(s)
  }

  ghost predicate ReplaySource(st: Store, e: Entry)
    requires e.Replayed?
  {
    exists c | c in st.calls :: OkFor(c, e.slot) && ReadArtifact(st, c.response) == Some(e.text)
  }

  lemma ReplaySourceExtends(st: Store, st': Store, e: Entry)
    requires e.Replayed? && ReplaySource(st, e) && Extends(st, st')
    ensures ReplaySource(st', e)
  {
    var c :| c in st.calls && OkFor(c, e.slot) && ReadArtifact(st, c.response) == Some(e.text);
    assert c in st'.calls;
    assert ReadArtifact(st', c.response) == Some(e.text);
  }

  /** What a step may write into the log, and when. */
  ghost predicate StepWrites(st: Store, pid: nat, p: Proc, l: Local)
    requires p.index < |p.req.items|
  {
    && |l.log| <= 1
    && (p.index == l.proc.index ==> !l.proc.pc.Lookup?)
    && p.index <= l.proc.index
    && (l.proc.pc.Creating? ==> p.pc.Lookup? && l.log == [Looked(pid, p.index, SlotOf(p), false)] && p.index == l.proc.index)
    && (l.log != [] ==>
          var e := l.log[0];
          && (e.Looked? ==> p.pc.Lookup? && e == Looked(pid, p.index, SlotOf(p), OkRows(st.calls, SlotOf(p)) > 0))
          && (e.Started? ==> p.pc.Creating? && e == Started(pid, p.index, SlotOf(p)))
          && (e.Inserted? ==> e.call in l.store.calls)
          && (e.Replayed? ==> ReplaySource(st, e)))
  }

  lemma LookupEntries(st: Store, pid: nat, p: Proc, choice: Choice)
    requires Active(p) && p.pc.Lookup?
    ensures StepWrites(st, pid, p, StepLookup(st, pid, p, choice))
  {
    LookupMeaning(st.calls, SlotOf(p));
  }

  lemma ReplayingEntries(st: Store, pid: nat, p: Proc, choice: Choice)
    requires ProcOk(st, p) && Active(p) && p.pc.Replaying?
    ensures StepWrites(st, pid, p, StepReplaying(st, p, choice))
  {
    var l := StepReplaying(st, p, choice);
    if l.log != [] {
      assert p.pc.row in st.calls && ReadArtifact(st, p.pc.row.response) == Some(l.log[0].text);
    }
  }

  lemma WritingEntries(st: Store, pid: nat, p: Proc, choice: Choice)
    requires Active(p) && p.pc.Saving?
    ensures StepWrites(st, pid, p, StepSaving(st, p, choice))
  {
  }

  lemma RemainingEntries(st: Store, pid: nat, p: Proc, choice: Choice)
    requires Active(p) && (p.pc.Creating? || p.pc.Awaiting? || (p.pc.Inserting? && |p.pc.saved| == 2))
    ensures StepWrites(st, pid, p, StepProc(st, pid, p, choice))
  {
  }

  lemma StepEntries(st: Store, pid: nat, p: Proc, choice: Choice)
    requires ProcOk(st, p) && Active(p)
    ensures StepWrites(st, pid, p, StepProc(st, pid, p, choice))
  {
    if p.pc.Lookup? { LookupEntries(st, pid, p, choice); }
    else if p.pc.Replaying? { ReplayingEntries(st, pid, p, choice); }
    else if p.pc.Saving? { WritingEntries(st, pid, p, choice); }
    else { RemainingEntries(st, pid, p, choice); }
  }

  /** The system after request `pid` took the local step `l`. */
  function After(s: System, pid: nat, l: Local): System
    requires pid < |s.procs|
  {
    System(l.store, s.procs[pid := l.proc], s.log + l.log)
  }

  ghost predicate Stepping(s: System, pid: nat, l: Local) {
    && EvidenceInv(s) && TraceInv(s)
    && pid < |s.procs| && Active(s.procs[pid])
    && StepWrites(s.store, pid, s.procs[pid], l) && Extends(s.store, l.store)
  }

  lemma KeepsPlaced(s: System, pid: nat, l: Local)
    requires Stepping(s, pid, l)
    ensures Placed(After(s, pid, l))
  {
    var s' := After(s, pid, l);
    forall k | 0 <= k < |s'.log| ensures PlacedIn(s'.procs, s'.log[k]) {
      if k < |s.log| {
        assert s'.log[k] == s.log[k] && PlacedIn(s.procs, s.log[k]);
      } else {
        assert s'.log[k] == l.log[0];
      }
    }
  }

  lemma KeepsCreators(s: System, pid: nat, l: Local)
    requires Stepping(s, pid, l)
    ensures CreatorsSawNone(After(s, pid, l))
  {
    var s' := After(s, pid, l);
    forall k, q | 0 <= k < |s'.log| && 0 <= q < |s'.procs| && s'.procs[q].pc.Creating?
      ensures !SawOk(s'.log[k], q, s'.procs[q].index)
    {
      if k < |s.log| {
        assert s'.log[k] == s.log[k] && PlacedIn(s.procs, s.log[k]);
      } else {
        assert s'.log[k] == l.log[0];
      }
    }
  }

  lemma KeepsStarters(s: System, pid: nat, l: Local)
    requires Stepping(s, pid, l)
    ensures StartersSawNone(After(s, pid, l))
  {
    var s' := After(s, pid, l);
    forall k, m | 0 <= k < |s'.log| && 0 <= m < |s'.log| && s'.log[m].Started?
      ensures !SawOk(s'.log[k], s'.log[m].pid, s'.log[m].index)
    {
      if k < |s.log| { assert s'.log[k] == s.log[k] && PlacedIn(s.procs, s.log[k]); }
      if m < |s.log| { assert s'.log[m] == s.log[m] && PlacedIn(s.procs, s.log[m]); }
    }
  }

  lemma KeepsRecords(s: System, pid: nat, l: Local)
    requires Stepping(s, pid, l)
    ensures RecordsSeen(After(s, pid, l))
  {
    var s' := After(s, pid, l);
    forall k | 0 <= k < |s'.log| && s'.log[k].Inserted? ensures s'.log[k].call in s'.store.calls {
      if k < |s.log| { assert s'.log[k] == s.log[k]; }
    }
    forall k, m | 0 <= k < m < |s'.log| && s'.log[k].Inserted? && s'.log[m].Looked? && OkFor(s'.log[k].call, s'.log[m].slot)
      ensures s'.log[m].sawOk
    {
      assert s'.log[k] == s.log[k];
      if m < |s.log| {
        assert s'.log[m] == s.log[m];
      } else {
        assert s.log[k].call in s.store.calls;
        OkRowsPositive(s.store.calls, s.log[k].call, s'.log[m].slot);
      }
    }
  }

  lemma KeepsReplays(s: System, pid: nat, l: Local)
    requires Stepping(s, pid, l)
    ensures ReplaysSourced(After(s, pid, l))
  {
    var s' := After(s, pid, l);
    forall k | 0 <= k < |s'.log| && s'.log[k].Replayed? ensures ReplaySource(s'.store, s'.log[k]) {
      if k < |s.log| { assert s'.log[k] == s.log[k]; }
      ReplaySourceExtends(s.store, s'.store, s'.log[k]);
    }
  }

  lemma NextKeepsTrace(s: System, e: Event)
    requires EvidenceInv(s) && TraceInv(s)
    ensures TraceInv(Next(s, e))
  {
    if e.Act? && e.pid < |s.procs| && Active(s.procs[e.pid]) {
      var p := s.procs[e.pid];
      assert ProcOk(s.store, p);
      var l := StepProc(s.store, e.pid, p, e.choice);
      StepEntries(s.store, e.pid, p, e.choice);
      StepSafe(s.store, e.pid, p, e.choice);
      assert Next(s, e) == After(s, e.pid, l);
      KeepsPlaced(s, e.pid, l);
      KeepsCreators(s, e.pid, l);
      KeepsStarters(s, e.pid, l);
      KeepsRecords(s, e.pid, l);
      KeepsReplays(s, e.pid, l);
    } else if e.Arrive? {
      ArrivalKeepsTrace(s, Proc(e.req, 0, Lookup));
    }
  }

  lemma ArrivalKeepsTrace(s: System, p: Proc)
    requires TraceInv(s) && p.pc.Lookup?
    ensures TraceInv(s.(procs := s.procs + [p]))
  {
    var s' := s.(procs := s.procs + [p]);
    forall k | 0 <= k < |s'.log| ensures PlacedIn(s'.procs, s'.log[k]) { assert PlacedIn(s.procs, s.log[k]); }
  }

  lemma {:induction false} TraceAlways(runs: set<string>, events: seq<Event>)
    ensures EvidenceInv(Run(Init(runs), events)) && TraceInv(Run(Init(runs), events))
  {
    EvidenceAlways(runs, events);
    if events != [] {
      TraceAlways(runs, events[..|events| - 1]);
      NextKeepsTrace(Run(Init(runs), events[..|events| - 1]), events[|events| - 1]);
    }
  }

  /** Main result: an item whose lookup saw an ok row never starts a creation, and once a
      success is recorded every later lookup of its slot sees it; so no creation ever follows a
      recorded success that the item's lookup came after. */
  lemma NoCreationAfterRecord(runs: set<string>, events: seq<Event>, k: nat, m: nat, n: nat)
    requires var log := Run(Init(runs), events).log;
             && k < m < |log| && n < |log| && log[k].Inserted? && log[m].Looked? && OkFor(log[k].call, log[m].slot)
    ensures var log := Run(Init(runs), events).log;
            log[m].sawOk && log[n] != Started(log[m].pid, log[m].index, log[m].slot)
  {
    TraceAlways(runs, events);
    var log := Run(Init(runs), events).log;
    assert log[m].sawOk;
    if log[n].Started? { assert !SawOk(log[m], log[n].pid, log[n].index); }
  }

  // ---------- lookups come first ----------

  /** What an entry that creates rests on: a started creation and a dry run on a lookup of the same item by
      the same request that saw no ok row, GitHub's answer on the start of that creation. */
  ghost predicate Founded(log: seq<Entry>, m: nat)
    requires m < |log|
  {
    match log[m]
    case Started(pid, index, slot) => Looked(pid, index, slot, false) in log[..m]
    case Got(pid, index, slot, outcome) =>
      if outcome.DryRun? then Looked(pid, index, slot, false) in log[..m] else Started(pid, index, slot) in log[..m]
    case _ => true
  }

  /** A request about to create has looked, one that waits for GitHub has started. */
  ghost predicate FoundedPc(log: seq<Entry>, pid: nat, p: Proc) {
    p.index < |p.req.items| ==>
      && (p.pc.Creating? ==> Looked(pid, p.index, SlotOf(p), false) in log)
      && (p.pc.Awaiting? ==> Started(pid, p.index, SlotOf(p)) in log)
  }

  /** Entries speak of the slot of the item they name. */
  predicate Theirs(procs: seq<Proc>, e: Entry) {
    e.Looked? || e.Started? || e.Got? ==>
      && e.pid < |procs| && e.index < |procs[e.pid].req.items|
      && var req := procs[e.pid].req;
         e.slot == Slot(req.runID, req.toolName, req.items[e.index].key)
  }

  ghost predicate OrderInv(s: System) {
    && (forall m | 0 <= m < |s.log| :: Founded(s.log, m) && Theirs(s.procs, s.log[m]))
    && forall pid | 0 <= pid < |s.procs| :: FoundedPc(s.log, pid, s.procs[pid])
  }

  /** How a local step keeps that order. */
  ghost predicate StepOrdered(pid: nat, p: Proc, l: Local)
    requires p.index < |p.req.items|
  {
    && |l.log| <= 1 && FoundedPc(l.log, pid, l.proc) && l.proc.req == p.req
    && (l.log != [] && l.log[0].Looked? ==> l.log[0] == Looked(pid, p.index, SlotOf(p), l.log[0].sawOk))
    && (l.log != [] && l.log[0].Started? ==> p.pc.Creating? && l.log[0] == Started(pid, p.index, SlotOf(p)))
    && (l.log != [] && l.log[0].Got? ==>
          && l.log[0] == Got(pid, p.index, SlotOf(p), l.log[0].outcome)
          && if l.log[0].outcome.DryRun? then p.pc.Creating? else p.pc.Awaiting?)
  }

  lemma SavingOrdered(st: Store, pid: nat, p: Proc, choice: Choice)
    requires Active(p) && p.pc.Saving?
    ensures StepOrdered(pid, p, StepSaving(st, p, choice))
  {
  }

  lemma LookingOrdered(st: Store, pid: nat, p: Proc, choice: Choice)
    requires Active(p) && (p.pc.Lookup? || p.pc.Replaying?)
    ensures StepOrdered(pid, p, StepProc(st, pid, p, choice))
  {
  }

  lemma CreatingOrdered(st: Store, pid: nat, p: Proc, choice: Choice)
    requires Active(p) && (p.pc.Creating? || p.pc.Awaiting? || (p.pc.Inserting? && |p.pc.saved| == 2))
    ensures StepOrdered(pid, p, StepProc(st, pid, p, choice))
  {
  }

  lemma OrderedAfter(s: System, pid: nat, l: Local)
    requires OrderInv(s) && pid < |s.procs| && s.procs[pid].index < |s.procs[pid].req.items| && StepOrdered(pid, s.procs[pid], l)
    ensures OrderInv(After(s, pid, l))
  {
    var s' := After(s, pid, l);
    forall m | 0 <= m < |s'.log| ensures Founded(s'.log, m) && Theirs(s'.procs, s'.log[m]) {
      if m < |s.log| {
        assert Founded(s.log, m) && Theirs(s.procs, s.log[m]) && s'.log[..m] == s.log[..m];
      } else {
        assert s'.log[..m] == s.log && FoundedPc(s.log, pid, s.procs[pid]);
      }
    }
    forall q | 0 <= q < |s'.procs| ensures FoundedPc(s'.log, q, s'.procs[q]) {
      if q != pid { assert FoundedPc(s.log, q, s.procs[q]); }
    }
  }

  lemma NextKeepsOrder(s: System, e: Event)
    requires OrderInv(s)
    ensures OrderInv(Next(s, e))
  {
    match e
    case Arrive(req) =>
      forall q | 0 <= q < |Next(s, e).procs| ensures FoundedPc(s.log, q, Next(s, e).procs[q]) {
        if q < |s.procs| { assert FoundedPc(s.log, q, s.procs[q]); }
      }
      forall m | 0 <= m < |s.log| ensures Theirs(Next(s, e).procs, s.log[m]) { assert Theirs(s.procs, s.log[m]); }
    case Act(pid, choice) =>
      if pid < |s.procs| && Active(s.procs[pid]) && (s.procs[pid].pc.Inserting? ==> |s.procs[pid].pc.saved| == 2) {
        var p := s.procs[pid];
        if p.pc.Saving? { SavingOrdered(s.store, pid, p, choice); }
        else if p.pc.Lookup? || p.pc.Replaying? { LookingOrdered(s.store, pid, p, choice); }
        else { CreatingOrdered(s.store, pid, p, choice); }
        OrderedAfter(s, pid, StepProc(s.store, pid, p, choice));
      }
  }

  lemma {:induction false} OrderAlways(runs: set<string>, events: seq<Event>)
    ensures OrderInv(Run(Init(runs), events))
  {
    if events != [] {
      OrderAlways(runs, events[..|events| - 1]);
      NextKeepsOrder(Run(Init(runs), events[..|events| - 1]), events[|events| - 1]);
    }
  }

  /** Main result: no request creates unasked. In every reachable state each start of a creation, each dry
      run and each answer of GitHub is for the slot of its request's item and comes after a lookup of that
      slot, by the same request for the same item, that saw no ok row. */
  lemma LookupsComeFirst(runs: set<string>, events: seq<Event>, m: nat) returns (k: nat)
    requires m < |Run(Init(runs), events).log|
    requires Run(Init(runs), events).log[m].Started? || Run(Init(runs), events).log[m].Got?
    ensures k < m
    ensures var s := Run(Init(runs), events);
            && s.log[k] == Looked(s.log[m].pid, s.log[m].index, s.log[m].slot, false)
            && s.log[m].pid < |s.procs| && s.log[m].index < |s.procs[s.log[m].pid].req.items|
            && var req := s.procs[s.log[m].pid].req; s.log[m].slot == Slot(req.runID, req.toolName, req.items[s.log[m].index].key)
  {
    OrderAlways(runs, events);
    var log := Run(Init(runs), events).log;
    assert Founded(log, m);
    var start := m;
    if log[m].Got? && !log[m].outcome.DryRun? {
      start :| 0 <= start < m && log[..m][start] == Started(log[m].pid, log[m].index, log[m].slot);
      assert Founded(log, start);
    }
    k :| 0 <= k < start && log[..start][k] == Looked(log[m].pid, log[m].index, log[m].slot, false);
  }

  lemma {:induction false} LogGrows(s: System, more: seq<Event>)
    ensures s.log <= Run(s, more).log
  {
    if more != [] { LogGrows(s, more[..|more| - 1]); }
  }

  /** A lookup that did not see a recorded success is of a request that was there already. */
  lemma BlindLookupsAreEarlier(s: System, s': System, k: nat, looked: nat)
    requires TraceInv(s) && TraceInv(s') && s.log <= s'.log && k < |s.log| && s.log[k].Inserted?
    requires looked < |s'.log| && s'.log[looked].Looked? && OkFor(s.log[k].call, s'.log[looked].slot) && !s'.log[looked].sawOk
    ensures s'.log[looked].pid < |s.procs|
  {
    assert s'.log[k] == s.log[k];
    assert looked < k;
    assert s.log[looked] == s'.log[looked] && PlacedIn(s.procs, s.log[looked]);
  }

  /** Main result: a request that arrives after a success was recorded for a slot never has GitHub create
      for that slot, nor answers for it with a dry run. */
  lemma LateRequestsCreateNothing(runs: set<string>, before: seq<Event>, more: seq<Event>, k: nat, slot: Slot, m: nat)
    requires var log := Run(Init(runs), before).log; k < |log| && log[k].Inserted? && OkFor(log[k].call, slot)
    requires m < |Run(Init(runs), before + more).log|
    ensures var e := Run(Init(runs), before + more).log[m];
            (e.Started? || e.Got?) && e.slot == slot ==> e.pid < |Run(Init(runs), before).procs|
  {
    var e := Run(Init(runs), before + more).log[m];
    if (e.Started? || e.Got?) && e.slot == slot {
      var looked := LookupsComeFirst(runs, before + more, m);
      RunAppend(Init(runs), before, more);
      LogGrows(Run(Init(runs), before), more);
      TraceAlways(runs, before);
      TraceAlways(runs, before + more);
      BlindLookupsAreEarlier(Run(Init(runs), before), Run(Init(runs), before + more), k, looked);
    }
  }

  // ---------- arrivals ----------

  /** A request for a known run with anything to do is taken in, and starts with the lookup of its first item. */
  lemma ArrivalWaits(runs: set<string>, events: seq<Event>, req: Request)
    ensures var s, s' := Run(Init(runs), events), Run(Init(runs), events + [Arrive(req)]);
            && s'.store == s.store && s'.log == s.log
            && s'.procs == if req.runID in runs && req.items != [] then s.procs + [Proc(req, 0, Lookup)] else s.procs
  {
    EvidenceAlways(runs, []);
    RunExtends(Init(runs), events);
    assert (events + [Arrive(req)])[..|events|] == events;
  }

  function Arrivals(reqs: seq<Request>): (events: seq<Event>)
    ensures |events| == |reqs|
  {
    seq(|reqs|, k requires 0 <= k < |reqs| => Arrive(reqs[k]))
  }

  function Arrived(reqs: seq<Request>): (procs: seq<Proc>)
    ensures |procs| == |reqs|
  {
    seq(|reqs|, k requires 0 <= k < |reqs| => Proc(reqs[k], 0, Lookup))
  }

  lemma LastArrival(events: seq<Event>, reqs: seq<Request>, procs: seq<Proc>)
    requires reqs != []
    ensures var n := |reqs| - 1;
            && events + Arrivals(reqs) == events + Arrivals(reqs[..n]) + [Arrive(reqs[n])]
            && procs + Arrived(reqs) == procs + Arrived(reqs[..n]) + [Proc(reqs[n], 0, Lookup)]
  {
  }

  lemma {:induction false} ArrivalsWait(runs: set<string>, events: seq<Event>, reqs: seq<Request>)
    requires forall k | 0 <= k < |reqs| :: reqs[k].runID in runs && reqs[k].items != []
    ensures var s, s' := Run(Init(runs), events), Run(Init(runs), events + Arrivals(reqs));
            s'.store == s.store && s'.log == s.log && s'.procs == s.procs + Arrived(reqs)
    decreases |reqs|
  {
    var procs := Run(Init(runs), events).procs;
    if reqs == [] {
      assert events + Arrivals(reqs) == events && procs + Arrived(reqs) == procs;
    } else {
      var n := |reqs| - 1;
      ArrivalsWait(runs, events, reqs[..n]);
      LastArrival(events, reqs, procs);
      ArrivalWaits(runs, events + Arrivals(reqs[..n]), reqs[n]);
    }
  }

  // ---------- evidence ----------

  lemma {:induction false} RunAppend(s: System, first: seq<Event>, more: seq<Event>)
    ensures Run(s, first + more) == Run(Run(s, first), more)
  {
    if more == [] {
      assert first + more == first;
    } else {
      RunAppend(s, first, more[..|more| - 1]);
      assert (first + more)[..|first + more| - 1] == first + more[..|more| - 1];
    }
  }

  lemma {:induction false} RunExtends(s: System, more: seq<Event>)
    requires EvidenceInv(s)
    ensures EvidenceInv(Run(s, more)) && Extends(s.store, Run(s, more).store)
  {
    if more != [] {
      var mid, e := Run(s, more[..|more| - 1]), more[|more| - 1];
      RunExtends(s, more[..|more| - 1]);
      NextKeepsEvidence(mid, e);
      ExtendsTransitive(s.store, mid.store, Next(mid, e).store);
    }
  }

  /** Main result: evidence is sound at every cut point and append-only ever after. Every artifact
      row has its file with matching hash and size, every tool call its own run's documents under
      its evidence hash; and no later event changes or removes any of them. */
  lemma EvidenceSoundAndAppendOnly(runs: set<string>, first: seq<Event>, more: seq<Event>)
    ensures Backed(Run(Init(runs), first).store)
    ensures Extends(Run(Init(runs), first).store, Run(Init(runs), first + more).store)
  {
    EvidenceAlways(runs, first);
    RunExtends(Run(Init(runs), first), more);
    RunAppend(Init(runs), first, more);
  }

  // ---------- evidence hashes ----------

  /** A recorded exchange: an object for the request, any value for the response. */
  ghost predicate Exchange(st: Store, c: ToolCall, request: seq<Member>, response: Json) {
    ReadArtifact(st, c.request) == Some(Encode(Obj(request))) && ReadArtifact(st, c.response) == Some(Encode(response))
  }

  ghost predicate IsExchange(st: Store, c: ToolCall) {
    exists request, response :: Exchange(st, c, request, response)
  }

  ghost predicate AllExchanges(s: System) {
    forall i | 0 <= i < |s.store.calls| :: IsExchange(s.store, s.store.calls[i])
  }

  lemma ExchangeExtends(st: Store, st': Store, c: ToolCall)
    requires IsExchange(st, c) && Extends(st, st')
    ensures IsExchange(st', c)
  {
    var request, response :| Exchange(st, c, request, response);
    assert Exchange(st', c, request, response);
  }

  lemma StepCalls(st: Store, pid: nat, p: Proc, choice: Choice)
    requires Active(p) && (p.pc.Inserting? ==> |p.pc.saved| == 2)
    ensures var l := StepProc(st, pid, p, choice);
            l.store.calls == st.calls
            || (p.pc.Inserting? && l.store.calls == st.calls + [NewCall(st, p, p.pc.outcome, p.pc.saved)]
                && l.store.artifacts == st.artifacts && l.store.files == st.files)
  {
  }

  lemma NewCallIsExchange(st: Store, p: Proc)
    requires ProcOk(st, p) && Active(p) && p.pc.Inserting?
    ensures IsExchange(st, NewCall(st, p, p.pc.outcome, p.pc.saved))
  {
    var item := p.req.items[p.index];
    var saved := p.pc.saved;
    assert saved[0] in st.artifacts && saved[1] in st.artifacts;
    assert Exchange(st, NewCall(st, p, p.pc.outcome, saved), item.request, ResponseJson(p.req.transport, item.form, p.pc.outcome));
  }

  lemma NextKeepsExchanges(s: System, e: Event)
    requires EvidenceInv(s) && AllExchanges(s)
    ensures AllExchanges(Next(s, e))
  {
    if e.Act? && e.pid < |s.procs| && Active(s.procs[e.pid]) {
      var p := s.procs[e.pid];
      assert ProcOk(s.store, p);
      NextKeepsEvidence(s, e);
      StepCalls(s.store, e.pid, p, e.choice);
      if p.pc.Inserting? { NewCallIsExchange(s.store, p); }
      var st' := Next(s, e).store;
      forall i | 0 <= i < |st'.calls| ensures IsExchange(st', st'.calls[i]) {
        if i < |s.store.calls| { assert st'.calls[i] == s.store.calls[i]; }
        assert IsExchange(s.store, st'.calls[i]);
        ExchangeExtends(s.store, st', st'.calls[i]);
      }
    }
  }

  lemma {:induction false} ExchangesAlways(runs: set<string>, events: seq<Event>)
    ensures AllExchanges(Run(Init(runs), events))
  {
    if events != [] {
      ExchangesAlways(runs, events[..|events| - 1]);
      EvidenceAlways(runs, events[..|events| - 1]);
      NextKeepsExchanges(Run(Init(runs), events[..|events| - 1]), events[|events| - 1]);
    }
  }

  /** Main result: although the evidence hash covers two documents run together without a
      separator, it pins both of them down: calls with equal evidence have equal request documents
      and equal response documents. */
  lemma EvidencePinsBothDocuments(runs: set<string>, events: seq<Event>, i: nat, j: nat)
    requires var calls := Run(Init(runs), events).store.calls;
             i < |calls| && j < |calls| && calls[i].evidence == calls[j].evidence
    ensures var st := Run(Init(runs), events).store;
            && ReadArtifact(st, st.calls[i].request) == ReadArtifact(st, st.calls[j].request)
            && ReadArtifact(st, st.calls[i].response) == ReadArtifact(st, st.calls[j].response)
  {
    EvidenceAlways(runs, events);
    ExchangesAlways(runs, events);
    var st := Run(Init(runs), events).store;
    var c, d := st.calls[i], st.calls[j];
    assert CallBacked(st, c) && CallBacked(st, d);
    assert IsExchange(st, c) && IsExchange(st, d);
    var r1, v1 :| Exchange(st, c, r1, v1);
    var r2, v2 :| Exchange(st, d, r2, v2);
    ConcatenationInjective(Obj(r1), v1, Obj(r2), v2);
  }

  /** Main result: a replay returns, byte for byte, the response document of the one ok row of its slot. */
  lemma ReplayReturnsRecordedResponse(runs: set<string>, events: seq<Event>, k: nat) returns (c: ToolCall)
    requires k < |Run(Init(runs), events).log| && Run(Init(runs), events).log[k].Replayed?
    ensures var s := Run(Init(runs), events);
            && c in s.store.calls && OkFor(c, s.log[k].slot)
            && ReadArtifact(s.store, c.response) == Some(s.log[k].text)
            && forall d | d in s.store.calls && OkFor(d, s.log[k].slot) :: d == c
  {
    TraceAlways(runs, events);
    var s := Run(Init(runs), events);
    assert ReplaySource(s.store, s.log[k]);
    c :| c in s.store.calls && OkFor(c, s.log[k].slot) && ReadArtifact(s.store, c.response) == Some(s.log[k].text);
    OkRowIsTheOne(s.store.calls, c, s.log[k].slot);
    forall d | d in s.store.calls && OkFor(d, s.log[k].slot) ensures d == c {
      OkRowIsTheOne(s.store.calls, d, s.log[k].slot);
    }
  }
}

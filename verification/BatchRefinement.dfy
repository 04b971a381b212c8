/** The step machine and the batch loop agree: a batch request of the machine that runs alone ends as the
    handler's loop does. */
module BatchRefinement {
  import opened Wrappers
  import opened IssueExchange
  import opened Store
  import opened Protocol
  import opened ProtocolLaws
  import opened ProtocolProofs
  import opened ServiceRefinement
  import Audit
  import Batch
  import IssueKey

  /** The machine's request for a batch call. */
  function RequestOf(call: Batch.BatchCall): Request {
    Request(call.runID, IssueKey.BATCH_TOOL, call.transport,
            seq(|call.items|, i requires 0 <= i < |call.items| => ItemOf(call, i)), call.dryRun, call.strict, false)
  }

  function ItemOf(call: Batch.BatchCall, i: nat): Item
    requires i < |call.items|
  {
    var input := call.items[i];
    Item(Batch.KeyOf(call, i), IssueForm(call.repo, input.title, input.body, input.labels), Batch.ItemMembers(input))
  }

  function AtItem(call: Batch.BatchCall, i: nat): Proc { Proc(RequestOf(call), i, Lookup) }

  /** The request after the loop's turn on item i. */
  function AfterItem(call: Batch.BatchCall, i: nat, r: Result<Batch.BatchResult, Batch.BatchError>): Proc
    requires i < |call.items|
  {
    match r
    case Err(error) => AtItem(call, i).(pc := Finished(if error.RecordBroke? then RecordFailed else ReplayFailed))
    case Ok(result) =>
      if !result.replayed && result.error && call.strict then AtItem(call, i).(pc := Finished(Stopped)) else Advance(AtItem(call, i))
  }

  lemma SameSlot(call: Batch.BatchCall, i: nat, pc: Pc)
    requires i < |call.items|
    ensures SlotOf(AtItem(call, i).(pc := pc)) == Batch.SlotOf(call, i)
  {
  }

  lemma SameInput(call: Batch.BatchCall, i: nat, pc: Pc, reply: Option<Issue>)
    requires i < |call.items|
    ensures InputOf(AtItem(call, i).(pc := pc), Batch.ItemOutcome(call, reply)) == Batch.ItemRecord(call, i, reply)
  {
  }

  // ---------- what GitHub creates ----------

  /** An issue GitHub created, as the log tells it. */
  datatype Making = Making(slot: Slot, issue: Issue)

  function MakingOf(e: Entry): seq<Making> {
    if e.Got? && e.outcome.Created? then [Making(e.slot, e.outcome.issue)] else []
  }

  function Makings(log: seq<Entry>): seq<Making> {
    if log == [] then [] else Makings(log[..|log| - 1]) + MakingOf(log[|log| - 1])
  }

  lemma MakingsAppend(log: seq<Entry>, e: Entry)
    ensures Makings(log + [e]) == Makings(log) + MakingOf(e)
  {
    assert (log + [e])[..|log|] == log;
  }

  function Times(ms: seq<Making>, slot: Slot): nat {
    if ms == [] then 0 else Times(ms[..|ms| - 1], slot) + One(ms[|ms| - 1].slot == slot)
  }

  lemma {:induction false} TimesAppend(a: seq<Making>, b: seq<Making>, slot: Slot)
    ensures Times(a + b, slot) == Times(a, slot) + Times(b, slot)
  {
    if b == [] {
      assert a + b == a;
    } else {
      assert (a + b)[..|a + b| - 1] == a + b[..|b| - 1];
      TimesAppend(a, b[..|b| - 1], slot);
    }
  }

  /** The makings of a log are what the conservation law counts. */
  lemma {:induction false} MakingsAreCreations(log: seq<Entry>, slot: Slot)
    ensures Count(log, Creations, slot) == Times(Makings(log), slot)
  {
    if log != [] {
      var e := log[|log| - 1];
      MakingsAreCreations(log[..|log| - 1], slot);
      TimesAppend(Makings(log[..|log| - 1]), MakingOf(e), slot);
      if MakingOf(e) != [] { assert MakingOf(e)[..0] == []; }
    }
  }

  lemma ReadingMakesNothing(l: Local, pid: nat, c: Choice)
    requires Active(l.proc) && (l.proc.pc.Lookup? || l.proc.pc.Replaying?)
    ensures Makings(Moved(l, pid, c).log) == Makings(l.log)
  {
    var step := StepProc(l.store, pid, l.proc, c);
    if step.log == [] {
      assert l.log + [] == l.log;
    } else {
      assert step.log == [step.log[0]];
      MakingsAppend(l.log, step.log[0]);
    }
  }

  lemma ReadsMakeNothing(l: Local, pid: nat, choices: seq<Choice>)
    requires Active(l.proc) && l.proc.pc.Replaying?
    requires 1 <= |choices| <= if l.proc.pc.checked then 1 else 2
    ensures Makings(Alone(l, pid, choices).log) == Makings(l.log)
    decreases choices
  {
    var l1 := Moved(l, pid, choices[0]);
    ReadingMakesNothing(l, pid, choices[0]);
    if |choices| == 2 && l1.proc.pc.Replaying? { ReadsMakeNothing(l1, pid, choices[1..]); }
  }

  /** A replay has GitHub create nothing. */
  lemma ReplayMakesNothing(l: Local, pid: nat, env: Audit.ReplayEnv)
    requires Active(l.proc) && l.proc.pc == Lookup
    ensures Makings(Alone(l, pid, ReplayChoices(l, env)).log) == Makings(l.log)
  {
    var choices := ReplayChoices(l, env);
    var l1 := Moved(l, pid, choices[0]);
    ReadingMakesNothing(l, pid, choices[0]);
    if l1.proc.pc.Replaying? { ReadsMakeNothing(l1, pid, choices[1..]); }
  }

  /** What the log says of the items that `Batch.CreationsOf` lists. */
  function MakingsOf(call: Batch.BatchCall, envs: seq<Batch.ItemEnv>, attempts: seq<Batch.Attempt>): seq<Making>
    requires |attempts| <= |envs| == |call.items|
  {
    if attempts == [] then []
    else
      var last := |attempts| - 1;
      MakingsOf(call, envs, attempts[..last]) + if attempts[last] == Batch.Fresh then MakingIn(call, last, envs[last]) else []
  }

  function MakingIn(call: Batch.BatchCall, i: nat, env: Batch.ItemEnv): seq<Making>
    requires i < |call.items|
  {
    if env.reply.Some? && !call.dryRun then [Making(Batch.SlotOf(call, i), env.reply.value)] else []
  }

  /** One by one, both are of the same item and issue. */
  lemma {:induction false} SameIssues(call: Batch.BatchCall, envs: seq<Batch.ItemEnv>, attempts: seq<Batch.Attempt>)
    requires |attempts| <= |envs| == |call.items|
    ensures var created, makings := Batch.CreationsOf(call, envs, attempts), MakingsOf(call, envs, attempts);
            && |created| == |makings|
            && forall k | 0 <= k < |created| ::
                 && created[k].issue == makings[k].issue
                 && exists i | 0 <= i < |call.items| :: makings[k].slot == Batch.SlotOf(call, i) && created[k].input == call.items[i]
  {
    if attempts != [] {
      var last := |attempts| - 1;
      SameIssues(call, envs, attempts[..last]);
    }
  }

  predicate FreshAt(attempts: seq<Batch.Attempt>, i: nat) { i < |attempts| && attempts[i] == Batch.Fresh }

  /** A slot is made once if its item is among the fresh ones, and not at all if it is not. */
  lemma {:induction false} TimesMade(call: Batch.BatchCall, envs: seq<Batch.ItemEnv>, attempts: seq<Batch.Attempt>, i: nat)
    requires |attempts| <= |envs| == |call.items| && i < |envs|
    requires forall k | 0 <= k < |attempts| && attempts[k] == Batch.Fresh :: MakingIn(call, k, envs[k]) != []
    ensures Times(MakingsOf(call, envs, attempts), Batch.SlotOf(call, i)) == One(FreshAt(attempts, i))
  {
    if attempts != [] {
      var last, slot := |attempts| - 1, Batch.SlotOf(call, i);
      var m := if attempts[last] == Batch.Fresh then MakingIn(call, last, envs[last]) else [];
      TimesMade(call, envs, attempts[..last], i);
      TimesAppend(MakingsOf(call, envs, attempts[..last]), m, slot);
      Batch.SlotsDistinct(call, last, i);
      assert m != [] ==> m[..0] == [];
    }
  }

  // ---------- one turn ----------

  /** GitHub's answer, for an item no replay was found for. */
  function CreateChoices(call: Batch.BatchCall, reply: Option<Issue>): seq<Choice> {
    if call.dryRun then [Go] else [Go] + [if reply.Some? then Reply(reply.value) else Go]
  }

  /** What the log says of it. */
  function CreateLog(pid: nat, call: Batch.BatchCall, i: nat, reply: Option<Issue>): seq<Entry>
    requires i < |call.items|
  {
    (if call.dryRun then [] else [Started(pid, i, Batch.SlotOf(call, i))]) + [Got(pid, i, Batch.SlotOf(call, i), Batch.ItemOutcome(call, reply))]
  }

  lemma CreateAlone(l: Local, pid: nat, call: Batch.BatchCall, i: nat, reply: Option<Issue>)
    requires i < |call.items| && l.proc == AtItem(call, i).(pc := Creating)
    ensures Alone(l, pid, CreateChoices(call, reply))
            == Local(l.store, AtItem(call, i).(pc := Saving(Batch.ItemOutcome(call, reply), [], Fresh)), l.log + CreateLog(pid, call, i, reply))
  {
    AloneOne(l, pid, Go, []);
    assert [Go] + [] == [Go];
    SameSlot(call, i, Creating);
    if !call.dryRun {
      var c, l1 := if reply.Some? then Reply(reply.value) else Go, Moved(l, pid, Go);
      AloneOne(l, pid, Go, [c]);
      SameSlot(call, i, Awaiting);
      AloneOne(l1, pid, c, []);
      assert [c] + [] == [c];
    }
  }

  lemma MakingsOfTwo(log: seq<Entry>, d: Entry, e: Entry)
    ensures Makings(log + ([d] + [e])) == Makings(log) + MakingOf(d) + MakingOf(e)
  {
    MakingsAppend(log, d);
    MakingsAppend(log + [d], e);
    assert log + [d] + [e] == log + ([d] + [e]);
  }

  lemma CreateMakes(log: seq<Entry>, pid: nat, call: Batch.BatchCall, i: nat, env: Batch.ItemEnv)
    requires i < |call.items|
    ensures Makings(log + CreateLog(pid, call, i, env.reply))
            == Makings(log) + MakingIn(call, i, env)
  {
    var started, got := Started(pid, i, Batch.SlotOf(call, i)), Got(pid, i, Batch.SlotOf(call, i), Batch.ItemOutcome(call, env.reply));
    assert MakingOf(got) == MakingIn(call, i, env);
    if call.dryRun {
      assert CreateLog(pid, call, i, env.reply) == [got];
      MakingsAppend(log, got);
    } else {
      MakingsOfTwo(log, started, got);
    }
  }

  function TurnChoices(l: Local, call: Batch.BatchCall, i: nat, env: Batch.ItemEnv): seq<Choice>
    requires i < |call.items| && l.proc == AtItem(call, i)
  {
    if Audit.ReplayEffect(l.store, Batch.SlotOf(call, i), None, env.replay) == Ok(None) then
      ReplayChoices(l, env.replay) + (CreateChoices(call, env.reply) + RecordChoices(env.record))
    else ReplayChoices(l, env.replay)
  }

  lemma RecordTurn(l: Local, pid: nat, call: Batch.BatchCall, i: nat, env: Batch.ItemEnv)
    requires i < |call.items| && l.proc == AtItem(call, i).(pc := Saving(Batch.ItemOutcome(call, env.reply), [], Fresh))
    requires Ready(l.store, l.proc)
    ensures var l' := Alone(l, pid, RecordChoices(env.record));
            var (st, r) := Audit.RecordEffect(true, l.store, Batch.ItemRecord(call, i, env.reply), env.record);
            && l'.store == st
            && l'.proc == if r.Err? then AtItem(call, i).(pc := Finished(RecordFailed))
                          else if Batch.ItemOutcome(call, env.reply).GitHubError? && call.strict then AtItem(call, i).(pc := Finished(Stopped))
                          else Advance(AtItem(call, i))
  {
    RecordAlone(l, pid, Batch.ItemOutcome(call, env.reply), env.record);
    SameInput(call, i, l.proc.pc, env.reply);
  }

  /** One turn of the loop, taken alone. */
  lemma TurnAlone(l: Local, pid: nat, call: Batch.BatchCall, i: nat, env: Batch.ItemEnv)
    requires i < |call.items| && l.proc == AtItem(call, i) && Ready(l.store, l.proc)
    ensures var l', (st, r) := Alone(l, pid, TurnChoices(l, call, i, env)), Batch.ItemEffect(true, l.store, call, i, env);
            l'.store == st && l'.proc == AfterItem(call, i, r)
  {
    var found := Audit.ReplayEffect(l.store, Batch.SlotOf(call, i), None, env.replay);
    var l1 := Alone(l, pid, ReplayChoices(l, env.replay));
    SameSlot(call, i, Lookup);
    ReplayAlone(l, pid, env.replay);
    if found == Ok(None) {
      var rest := CreateChoices(call, env.reply) + RecordChoices(env.record);
      var l2 := Alone(l1, pid, CreateChoices(call, env.reply));
      AloneAppend(l, pid, ReplayChoices(l, env.replay), rest);
      CreateAlone(l1, pid, call, i, env.reply);
      AloneAppend(l1, pid, CreateChoices(call, env.reply), RecordChoices(env.record));
      RecordTurn(l2, pid, call, i, env);
    }
  }

  lemma RecordMakesNothing(l: Local, pid: nat, o: Outcome, env: Audit.RecordEnv)
    requires AtSave(l, o, [])
    ensures Makings(Alone(l, pid, RecordChoices(env)).log) == Makings(l.log)
  {
    var r := Audit.RecordEffect(true, l.store, InputOf(l.proc, o), env).1;
    RecordAlone(l, pid, o, env);
    MakingsAppend(l.log, if r.Ok? then Inserted(r.value.call) else Lost(SlotOf(l.proc), OkOutcome(o)));
  }

  /** What the turn on item i has GitHub create, as the log tells it. */
  function TurnMakes(st: Store, call: Batch.BatchCall, i: nat, env: Batch.ItemEnv): seq<Making>
    requires i < |call.items|
  {
    if Audit.ReplayEffect(st, Batch.SlotOf(call, i), None, env.replay) == Ok(None) then MakingIn(call, i, env) else []
  }

  lemma TurnMakesAlone(l: Local, pid: nat, call: Batch.BatchCall, i: nat, env: Batch.ItemEnv)
    requires i < |call.items| && l.proc == AtItem(call, i) && Ready(l.store, l.proc)
    ensures Makings(Alone(l, pid, TurnChoices(l, call, i, env)).log) == Makings(l.log) + TurnMakes(l.store, call, i, env)
  {
    var replay, create, record := ReplayChoices(l, env.replay), CreateChoices(call, env.reply), RecordChoices(env.record);
    var l1 := Alone(l, pid, replay);
    SameSlot(call, i, Lookup);
    ReplayAlone(l, pid, env.replay);
    ReplayMakesNothing(l, pid, env.replay);
    if Audit.ReplayEffect(l.store, Batch.SlotOf(call, i), None, env.replay) == Ok(None) {
      AloneAppend(l, pid, replay, create + record);
      AloneAppend(l1, pid, create, record);
      CreateAlone(l1, pid, call, i, env.reply);
      CreateMakes(l1.log, pid, call, i, env);
      RecordMakesNothing(Alone(l1, pid, create), pid, Batch.ItemOutcome(call, env.reply), env.record);
    }
  }

  // ---------- the loop ----------

  /** How the machine's request ends, told by the loop. */
  function EndOf(r: Result<Option<nat>, Batch.BatchError>): End {
    match r
    case Ok(None) => Completed
    case Ok(Some(_)) => Stopped
    case Err(error) => if error.RecordBroke? then RecordFailed else ReplayFailed
  }

  lemma SoundIsReady(st: Store, call: Batch.BatchCall, i: nat)
    requires Sound(st) && call.runID in st.runs && i < |call.items|
    ensures Ready(st, AtItem(call, i))
  {
    forall id | id in st.artifacts ensures id < st.nextID { assert ArtifactBacked(st, id); }
  }

  lemma MakingsStep(call: Batch.BatchCall, envs: seq<Batch.ItemEnv>, attempts: seq<Batch.Attempt>, a: Batch.Attempt)
    requires |attempts| < |envs| == |call.items|
    ensures var i := |attempts|;
            MakingsOf(call, envs, attempts + [a]) == MakingsOf(call, envs, attempts) + if a == Batch.Fresh then MakingIn(call, i, envs[i]) else []
    ensures var i := |attempts|;
            Batch.CreationsOf(call, envs, attempts + [a])
            == Batch.CreationsOf(call, envs, attempts) + if a == Batch.Fresh then Batch.CreationIn(call, i, envs[i]) else []
  {
    assert (attempts + [a])[..|attempts|] == attempts;
  }

  /** The machine's request and the loop stand before the same item, and GitHub has created the same issues. */
  ghost predicate Level(l: Local, call: Batch.BatchCall, envs: seq<Batch.ItemEnv>, b: Batch.Loop, m0: seq<Making>) {
    && Batch.Fits(b, call, envs) && |b.attempts| < |envs| && Sound(b.st) && call.runID in b.st.runs
    && l.store == b.st && l.proc == AtItem(call, |b.attempts|)
    && b.created == Batch.CreationsOf(call, envs, b.attempts) && Makings(l.log) == m0 + MakingsOf(call, envs, b.attempts)
  }

  /** Whose issues were created: the fresh attempts', and that of the item whose record broke off, if any was. */
  predicate MadeIn(made: seq<Batch.Attempt>, attempts: seq<Batch.Attempt>, r: Result<Option<nat>, Batch.BatchError>) {
    made == attempts || (r.Err? && r.error.RecordBroke? && made == attempts + [Batch.Fresh])
  }

  /** They ended alike. */
  ghost predicate EndLevel(l: Local, call: Batch.BatchCall, envs: seq<Batch.ItemEnv>, b: Batch.Loop, r: Result<Option<nat>, Batch.BatchError>,
                           m0: seq<Making>, made: seq<Batch.Attempt>)
  {
    && |made| <= |envs| == |call.items| && MadeIn(made, b.attempts, r)
    && l.store == b.st && l.proc.pc == Finished(EndOf(r))
    && b.created == Batch.CreationsOf(call, envs, made) && Makings(l.log) == m0 + MakingsOf(call, envs, made)
  }

  /** Has the loop more items to do after its turn on the next one? */
  predicate GoesOn(call: Batch.BatchCall, envs: seq<Batch.ItemEnv>, b: Batch.Loop)
    requires Batch.Fits(b, call, envs) && |b.attempts| < |envs|
  {
    var i := |b.attempts|;
    var item := Batch.ItemEffect(true, b.st, call, i, envs[i]).1;
    item.Ok? && (item.value.replayed || !item.value.error || !call.strict) && i + 1 < |envs|
  }

  /** The attempts the turn on the next item leaves, with the issue a broken-off record had GitHub create. */
  function MadeAfter(call: Batch.BatchCall, envs: seq<Batch.ItemEnv>, b: Batch.Loop): seq<Batch.Attempt>
    requires Batch.Fits(b, call, envs) && |b.attempts| < |envs|
  {
    var i := |b.attempts|;
    if Batch.ItemEffect(true, b.st, call, i, envs[i]).1.Ok? then b.attempts + [Batch.Attempted(b, call, envs)]
    else if Batch.CreatedBy(b.st, call, i, envs[i]) == [] then b.attempts
    else b.attempts + [Batch.Fresh]
  }

  /** What a turn has GitHub create. */
  lemma TurnCreates(call: Batch.BatchCall, envs: seq<Batch.ItemEnv>, b: Batch.Loop)
    requires Batch.Fits(b, call, envs) && |b.attempts| < |envs|
    ensures var i, made := |b.attempts|, MadeAfter(call, envs, b);
            && Batch.CreationsOf(call, envs, made) == Batch.CreationsOf(call, envs, b.attempts) + Batch.CreatedBy(b.st, call, i, envs[i])
            && MakingsOf(call, envs, made) == MakingsOf(call, envs, b.attempts) + TurnMakes(b.st, call, i, envs[i])
  {
    var i := |b.attempts|;
    if Batch.ItemEffect(true, b.st, call, i, envs[i]).1.Ok? {
      Batch.ItemReports(true, b.st, call, i, envs[i]);
      MakingsStep(call, envs, b.attempts, Batch.Attempted(b, call, envs));
    } else if Batch.CreatedBy(b.st, call, i, envs[i]) != [] {
      MakingsStep(call, envs, b.attempts, Batch.Fresh);
    }
  }

  lemma LevelLog(l: Local, pid: nat, call: Batch.BatchCall, envs: seq<Batch.ItemEnv>, b: Batch.Loop, m0: seq<Making>)
    requires Level(l, call, envs, b, m0)
    ensures Makings(Alone(l, pid, TurnChoices(l, call, |b.attempts|, envs[|b.attempts|])).log) == m0 + MakingsOf(call, envs, MadeAfter(call, envs, b))
  {
    SoundIsReady(b.st, call, |b.attempts|);
    TurnMakesAlone(l, pid, call, |b.attempts|, envs[|b.attempts|]);
    TurnCreates(call, envs, b);
    Associative(m0, MakingsOf(call, envs, b.attempts), TurnMakes(b.st, call, |b.attempts|, envs[|b.attempts|]));
  }

  lemma Associative(x: seq<Making>, y: seq<Making>, z: seq<Making>)
    ensures x + y + z == x + (y + z)
  {
  }

  lemma LevelTurn(l: Local, pid: nat, call: Batch.BatchCall, envs: seq<Batch.ItemEnv>, b: Batch.Loop, m0: seq<Making>)
    requires Level(l, call, envs, b, m0)
    ensures var i := |b.attempts|;
            var l', (st, item) := Alone(l, pid, TurnChoices(l, call, i, envs[i])), Batch.ItemEffect(true, b.st, call, i, envs[i]);
            l'.store == st && l'.proc == AfterItem(call, i, item)
  {
    SoundIsReady(b.st, call, |b.attempts|);
    TurnAlone(l, pid, call, |b.attempts|, envs[|b.attempts|]);
  }

  /** The loop's side of a turn it goes on after. */
  lemma LoopNext(call: Batch.BatchCall, envs: seq<Batch.ItemEnv>, b: Batch.Loop)
    requires Batch.Fits(b, call, envs) && |b.attempts| < |envs| && GoesOn(call, envs, b)
    requires Sound(b.st) && call.runID in b.st.runs && b.created == Batch.CreationsOf(call, envs, b.attempts)
    ensures var i, next := |b.attempts|, Batch.AfterTurn(true, call, envs, b);
            var (st, item) := Batch.ItemEffect(true, b.st, call, i, envs[i]);
            && next.st == st && Sound(st) && call.runID in st.runs && next.attempts == MadeAfter(call, envs, b) && |next.attempts| == i + 1 < |envs|
            && next.created == Batch.CreationsOf(call, envs, next.attempts) && AfterItem(call, i, item) == AtItem(call, i + 1)
            && Batch.LoopFrom(true, call, envs, b) == Batch.LoopFrom(true, call, envs, next)
  {
    var i := |b.attempts|;
    Batch.ItemKeepsSound(true, b.st, call, i, envs[i]);
    TurnCreates(call, envs, b);
    var (st, item) := Batch.ItemEffect(true, b.st, call, i, envs[i]);
    Batch.TurnOfTheLoop(true, call, envs, b, st, item, b.created + Batch.CreatedBy(b.st, call, i, envs[i]));
  }

  /** The loop's side of its last turn: how it ends. */
  lemma LoopEnds(call: Batch.BatchCall, envs: seq<Batch.ItemEnv>, b: Batch.Loop)
    requires Batch.Fits(b, call, envs) && |b.attempts| < |envs| && !GoesOn(call, envs, b)
    ensures var i := |b.attempts|;
            var (st, item) := Batch.ItemEffect(true, b.st, call, i, envs[i]);
            var (b', r) := Batch.LoopFrom(true, call, envs, b);
            && b'.st == st && (item.Err? <==> r.Err?) && (r.Err? ==> r.error == item.error)
            && AfterItem(call, i, item).pc == Finished(EndOf(r))
  {
    var i := |b.attempts|;
    var (st, item) := Batch.ItemEffect(true, b.st, call, i, envs[i]);
    Batch.TurnOfTheLoop(true, call, envs, b, st, item, b.created + Batch.CreatedBy(b.st, call, i, envs[i]));
  }

  /** The same: what it leaves. */
  lemma LoopLeaves(call: Batch.BatchCall, envs: seq<Batch.ItemEnv>, b: Batch.Loop)
    requires Batch.Fits(b, call, envs) && |b.attempts| < |envs| && !GoesOn(call, envs, b)
    ensures var i, b' := |b.attempts|, Batch.LoopFrom(true, call, envs, b).0;
            && b'.created == b.created + Batch.CreatedBy(b.st, call, i, envs[i])
            && b'.attempts == if Batch.ItemEffect(true, b.st, call, i, envs[i]).1.Ok? then MadeAfter(call, envs, b) else b.attempts
  {
    var i := |b.attempts|;
    var (st, item) := Batch.ItemEffect(true, b.st, call, i, envs[i]);
    Batch.TurnOfTheLoop(true, call, envs, b, st, item, b.created + Batch.CreatedBy(b.st, call, i, envs[i]));
  }

  lemma LoopLast(call: Batch.BatchCall, envs: seq<Batch.ItemEnv>, b: Batch.Loop)
    requires Batch.Fits(b, call, envs) && |b.attempts| < |envs| && !GoesOn(call, envs, b)
    requires b.created == Batch.CreationsOf(call, envs, b.attempts)
    ensures var made, (b', r) := MadeAfter(call, envs, b), Batch.LoopFrom(true, call, envs, b);
            && |made| <= |envs| && MadeIn(made, b'.attempts, r) && b'.created == Batch.CreationsOf(call, envs, made)
  {
    TurnCreates(call, envs, b);
    Batch.ItemReports(true, b.st, call, |b.attempts|, envs[|b.attempts|]);
    LoopEnds(call, envs, b);
    LoopLeaves(call, envs, b);
  }

  /** The rest of the loop, taken alone. */
  lemma {:induction false} LoopAlone(l: Local, pid: nat, call: Batch.BatchCall, envs: seq<Batch.ItemEnv>, b: Batch.Loop, m0: seq<Making>)
    returns (choices: seq<Choice>, made: seq<Batch.Attempt>)
    requires Level(l, call, envs, b, m0)
    ensures var (b', r) := Batch.LoopFrom(true, call, envs, b); EndLevel(Alone(l, pid, choices), call, envs, b', r, m0, made)
    decreases |envs| - |b.attempts|
  {
    var i := |b.attempts|;
    choices := TurnChoices(l, call, i, envs[i]);
    LevelTurn(l, pid, call, envs, b, m0);
    LevelLog(l, pid, call, envs, b, m0);
    if GoesOn(call, envs, b) {
      var rest;
      var next := Batch.AfterTurn(true, call, envs, b);
      LoopNext(call, envs, b);
      rest, made := LoopAlone(Alone(l, pid, choices), pid, call, envs, next, m0);
      AloneAppend(l, pid, choices, rest);
      choices := choices + rest;
    } else {
      made := MadeAfter(call, envs, b);
      LoopEnds(call, envs, b);
      LoopLast(call, envs, b);
    }
  }

  /** From s to s' request `pid` ended as the loop did, and GitHub created the same issues. */
  ghost predicate AsTheLoop(s: System, s': System, pid: nat, call: Batch.BatchCall, envs: seq<Batch.ItemEnv>, b: Batch.Loop,
                            r: Result<Option<nat>, Batch.BatchError>, made: seq<Batch.Attempt>)
  {
    && s'.store == b.st && pid < |s'.procs| && s'.procs[pid].pc == Finished(EndOf(r))
    && |made| <= |envs| == |call.items| && MadeIn(made, b.attempts, r)
    && b.created == Batch.CreationsOf(call, envs, made) && Makings(s'.log) == Makings(s.log) + MakingsOf(call, envs, made)
  }

  /** The same for a request that waits to start: whatever its environment, the machine has a continuation in
      which only that request moves and which ends as the loop does. */
  lemma WaitingBatchEnds(runs: set<string>, events: seq<Event>, pid: nat, call: Batch.BatchCall, envs: seq<Batch.ItemEnv>)
    returns (more: seq<Event>, made: seq<Batch.Attempt>)
    requires pid < |Run(Init(runs), events).procs| && Run(Init(runs), events).procs[pid] == AtItem(call, 0)
    requires |envs| == |call.items| > 0
    ensures var s, s' := Run(Init(runs), events), Run(Init(runs), events + more);
            var (b, r) := Batch.LoopFrom(true, call, envs, Batch.Start(s.store, call, []));
            AsTheLoop(s, s', pid, call, envs, b, r, made) && s'.procs == s.procs[pid := s'.procs[pid]]
  {
    var s := Run(Init(runs), events);
    var l, start := Local(s.store, s.procs[pid], s.log), Batch.Start(s.store, call, []);
    EvidenceAlways(runs, events);
    assert ProcOk(s.store, s.procs[pid]);
    assert Makings(l.log) == Makings(s.log) + [];
    var choices;
    choices, made := LoopAlone(l, pid, call, envs, start, Makings(s.log));
    more := AloneInSystem(s, pid, choices);
    RunAppend(Init(runs), events, more);
  }

  /** Main result: in every reachable system, among however many others, for a batch call on a known run and
      every way its environment may fare, the machine has a continuation in which the call's request arrives,
      only that request moves, and which ends as the handler's loop does: same storage, same verdict, and the
      log grows by exactly the creations the loop leaves at GitHub. */
  lemma MachineRefinesBatch(runs: set<string>, events: seq<Event>, call: Batch.BatchCall, envs: seq<Batch.ItemEnv>)
    returns (more: seq<Event>, made: seq<Batch.Attempt>)
    requires call.runID in runs && |envs| == |call.items| > 0
    ensures var s, s' := Run(Init(runs), events), Run(Init(runs), events + [Arrive(RequestOf(call))] + more);
            var (b, r) := Batch.LoopFrom(true, call, envs, Batch.Start(s.store, call, []));
            && AsTheLoop(s, s', |s.procs|, call, envs, b, r, made)
            && s'.procs == s.procs + [s'.procs[|s.procs|]] && s'.procs[|s.procs|].req == RequestOf(call)
  {
    var s := Run(Init(runs), events);
    ArrivalWaits(runs, events, RequestOf(call));
    more, made := WaitingBatchEnds(runs, events + [Arrive(RequestOf(call))], |s.procs|, call, envs);
    RequestsStay(runs, events + [Arrive(RequestOf(call))], more, |s.procs|);
    LastReplaced(s.procs, AtItem(call, 0), Run(Init(runs), events + [Arrive(RequestOf(call))] + more).procs[|s.procs|]);
  }

  lemma LastReplaced(procs: seq<Proc>, p: Proc, q: Proc)
    ensures (procs + [p])[|procs| := q] == procs + [q]
  {
  }

  lemma {:induction false} RequestsStay(runs: set<string>, events: seq<Event>, more: seq<Event>, pid: nat)
    requires pid < |Run(Init(runs), events).procs|
    ensures pid < |Run(Init(runs), events + more).procs|
    ensures Run(Init(runs), events + more).procs[pid].req == Run(Init(runs), events).procs[pid].req
  {
    if more == [] {
      assert events + more == events;
    } else {
      var init := more[..|more| - 1];
      RequestsStay(runs, events, init, pid);
      LastEvent(runs, events, more);
      NextKeepsRequests(Run(Init(runs), events + init), more[|more| - 1], pid);
    }
  }

  lemma LastEvent(runs: set<string>, events: seq<Event>, more: seq<Event>)
    requires more != []
    ensures var n := |more| - 1; Run(Init(runs), events + more) == Next(Run(Init(runs), events + more[..n]), more[n])
  {
    assert (events + more)[..|events + more| - 1] == events + more[..|more| - 1];
  }

  lemma NextKeepsRequests(s: System, e: Event, pid: nat)
    requires pid < |s.procs|
    ensures pid < |Next(s, e).procs| && Next(s, e).procs[pid].req == s.procs[pid].req
  {
  }

  // ---------- retries on the machine ----------

  /** A call that completes has the log count one creation more for each fresh success, and no other. */
  lemma VisitCounts(call: Batch.BatchCall, v: Batch.Visit, log: seq<Entry>, log': seq<Entry>, i: nat)
    requires Sound(v.before) && !call.dryRun && Batch.VisitRuns(true, call, v) && i < |call.items| && |v.after.attempts| <= |v.envs|
    requires Makings(log') == Makings(log) + MakingsOf(Batch.CallOf(call, v), v.envs, v.after.attempts)
    ensures Count(log', Creations, Batch.SlotOf(call, i)) == Count(log, Creations, Batch.SlotOf(call, i)) + One(FreshAt(v.after.attempts, i))
  {
    var run, slot := Batch.CallOf(call, v), Batch.SlotOf(call, i);
    var makings := MakingsOf(run, v.envs, v.after.attempts);
    forall k | 0 <= k < |v.after.attempts| && v.after.attempts[k] == Batch.Fresh ensures MakingIn(run, k, v.envs[k]) != [] {
      Batch.VisitIssues(true, call, v, k);
    }
    assert Batch.SlotOf(run, i) == slot;
    TimesMade(run, v.envs, v.after.attempts, i);
    TimesAppend(Makings(log), makings, slot);
    MakingsAreCreations(log, slot);
    MakingsAreCreations(log', slot);
  }

  ghost predicate CountsFresh(log: seq<Entry>, log': seq<Entry>, call: Batch.BatchCall, attempts: seq<Batch.Attempt>) {
    forall i | 0 <= i < |call.items| ::
      Count(log', Creations, Batch.SlotOf(call, i)) == Count(log, Creations, Batch.SlotOf(call, i)) + One(FreshAt(attempts, i))
  }

  ghost predicate CountsTries(log: seq<Entry>, log': seq<Entry>, call: Batch.BatchCall, tries: seq<Batch.Try>, n: nat)
    requires n <= |tries|
  {
    forall i | 0 <= i < |call.items| ::
      Count(log', Creations, Batch.SlotOf(call, i)) == Count(log, Creations, Batch.SlotOf(call, i)) + Batch.Creations(tries, n, i)
  }

  lemma CountsOneMore(log: seq<Entry>, log': seq<Entry>, log'': seq<Entry>, call: Batch.BatchCall, tries: seq<Batch.Try>, n: nat)
    requires 0 < n <= |tries| && CountsTries(log, log', call, tries, n - 1) && CountsFresh(log', log'', call, tries[n - 1].attempts)
    ensures CountsTries(log, log'', call, tries, n)
  {
    forall i | 0 <= i < |call.items|
      ensures Count(log'', Creations, Batch.SlotOf(call, i)) == Count(log, Creations, Batch.SlotOf(call, i)) + Batch.Creations(tries, n, i)
    {
      assert Count(log', Creations, Batch.SlotOf(call, i)) == Count(log, Creations, Batch.SlotOf(call, i)) + Batch.Creations(tries, n - 1, i);
    }
  }

  /** The requests of the visits from the given one on wait to start. */
  ghost predicate Waiting(s: System, call: Batch.BatchCall, visits: seq<Batch.Visit>, pids: seq<nat>, from: nat) {
    && |pids| == |visits|
    && (forall k | from <= k < |pids| :: pids[k] < |s.procs| && s.procs[pids[k]] == AtItem(Batch.CallOf(call, visits[k]), 0))
    && forall j, k | from <= j < k < |pids| :: pids[j] != pids[k]
  }

  lemma OneVisit(runs: set<string>, events: seq<Event>, call: Batch.BatchCall, visits: seq<Batch.Visit>, pids: seq<nat>, k: nat)
    returns (more: seq<Event>)
    requires !call.dryRun && call.items != [] && k < |visits| && Batch.VisitRuns(true, call, visits[k])
    requires Run(Init(runs), events).store == visits[k].before && Waiting(Run(Init(runs), events), call, visits, pids, k)
    ensures var s, s' := Run(Init(runs), events), Run(Init(runs), events + more);
            && s'.store == visits[k].after.st && Waiting(s', call, visits, pids, k + 1)
            && CountsFresh(s.log, s'.log, call, visits[k].after.attempts)
  {
    var made;
    var v, s := visits[k], Run(Init(runs), events);
    more, made := WaitingBatchEnds(runs, events, pids[k], Batch.CallOf(call, v), v.envs);
    EvidenceAlways(runs, events);
    forall i | 0 <= i < |call.items|
      ensures Count(Run(Init(runs), events + more).log, Creations, Batch.SlotOf(call, i))
              == Count(s.log, Creations, Batch.SlotOf(call, i)) + One(FreshAt(v.after.attempts, i))
    {
      VisitCounts(call, v, s.log, Run(Init(runs), events + more).log, i);
    }
  }

  /** From s to s' the first n visits were made. */
  ghost predicate Visited(s: System, s': System, call: Batch.BatchCall, visits: seq<Batch.Visit>, pids: seq<nat>, n: nat)
    requires Batch.RetrySequence(true, call, visits) && n <= |visits|
  {
    && s'.store == (if n == 0 then s.store else visits[n - 1].after.st) && Waiting(s', call, visits, pids, n)
    && CountsTries(s.log, s'.log, call, Batch.TriesOf(true, call, visits), n)
  }

  lemma VisitsOneMore(s: System, s1: System, s2: System, call: Batch.BatchCall, visits: seq<Batch.Visit>, pids: seq<nat>, n: nat)
    requires Batch.RetrySequence(true, call, visits) && n < |visits| && Visited(s, s1, call, visits, pids, n)
    requires s2.store == visits[n].after.st && Waiting(s2, call, visits, pids, n + 1)
    requires CountsFresh(s1.log, s2.log, call, visits[n].after.attempts)
    ensures Visited(s, s2, call, visits, pids, n + 1)
  {
    CountsOneMore(s.log, s1.log, s2.log, call, Batch.TriesOf(true, call, visits), n + 1);
  }

  lemma VisitNext(s: System, runs: set<string>, events: seq<Event>, call: Batch.BatchCall, visits: seq<Batch.Visit>, pids: seq<nat>, n: nat)
    returns (more: seq<Event>)
    requires Batch.RetrySequence(true, call, visits) && call.items != [] && n < |visits| && s.store == visits[0].before
    requires Visited(s, Run(Init(runs), events), call, visits, pids, n)
    ensures Visited(s, Run(Init(runs), events + more), call, visits, pids, n + 1)
  {
    assert Batch.VisitRuns(true, call, visits[n]);
    more := OneVisit(runs, events, call, visits, pids, n);
    VisitsOneMore(s, Run(Init(runs), events), Run(Init(runs), events + more), call, visits, pids, n);
  }

  lemma EventsAssociative(x: seq<Event>, y: seq<Event>, z: seq<Event>)
    ensures x + y + z == x + (y + z)
  {
  }

  lemma {:induction false} VisitsInTurn(runs: set<string>, events: seq<Event>, call: Batch.BatchCall, visits: seq<Batch.Visit>,
                                        pids: seq<nat>, n: nat) returns (more: seq<Event>)
    requires Batch.RetrySequence(true, call, visits) && call.items != [] && n <= |visits|
    requires Run(Init(runs), events).store == visits[0].before && Waiting(Run(Init(runs), events), call, visits, pids, 0)
    ensures Visited(Run(Init(runs), events), Run(Init(runs), events + more), call, visits, pids, n)
    decreases n
  {
    if n == 0 {
      more := [];
      assert events + more == events;
    } else {
      var before := VisitsInTurn(runs, events, call, visits, pids, n - 1);
      var last := VisitNext(Run(Init(runs), events), runs, events + before, call, visits, pids, n - 1);
      more := before + last;
      EventsAssociative(events, before, last);
    }
  }

  function RequestsOf(call: Batch.BatchCall, visits: seq<Batch.Visit>): (reqs: seq<Request>)
    ensures |reqs| == |visits|
  {
    seq(|visits|, k requires 0 <= k < |visits| => RequestOf(Batch.CallOf(call, visits[k])))
  }

  lemma ArrivedWait(s: System, call: Batch.BatchCall, visits: seq<Batch.Visit>, procs: seq<Proc>, pids: seq<nat>)
    requires s.procs == procs + Arrived(RequestsOf(call, visits))
    requires |pids| == |visits| && forall k | 0 <= k < |pids| :: pids[k] == |procs| + k
    ensures Waiting(s, call, visits, pids, 0)
  {
  }

  /** Main result: in any reachable system, among however many other requests, a sequence of retries of one
      batch, over whatever transports, can arrive and be run by the machine; then its log counts as many
      creations of an item as the item gained ok rows, so at most one, and none if it had its row before. */
  lemma RetriesOnTheMachine(runs: set<string>, events: seq<Event>, call: Batch.BatchCall, visits: seq<Batch.Visit>)
    returns (more: seq<Event>)
    requires Batch.RetrySequence(true, call, visits) && call.items != [] && call.runID in runs
    requires Run(Init(runs), events).store == visits[0].before
    ensures var s, s' := Run(Init(runs), events), Run(Init(runs), events + Arrivals(RequestsOf(call, visits)) + more);
            s'.store == visits[|visits| - 1].after.st && RowsMatchCreations(s, s', call)
  {
    var procs, arrivals := Run(Init(runs), events).procs, Arrivals(RequestsOf(call, visits));
    var pids := seq(|visits|, k requires 0 <= k < |visits| => |procs| + k);
    ArrivalsWait(runs, events, RequestsOf(call, visits));
    ArrivedWait(Run(Init(runs), events + arrivals), call, visits, procs, pids);
    more := WaitingRetries(runs, events + arrivals, call, visits, pids);
  }

  /** From s to s' each item gained as many ok rows as the log counts creations, and has at most one. */
  ghost predicate RowsMatchCreations(s: System, s': System, call: Batch.BatchCall) {
    forall i | 0 <= i < |call.items| ::
      var slot := Batch.SlotOf(call, i);
      && OkRows(s.store.calls, slot) <= OkRows(s'.store.calls, slot) <= 1
      && Count(s'.log, Creations, slot) - Count(s.log, Creations, slot) == OkRows(s'.store.calls, slot) - OkRows(s.store.calls, slot)
  }

  /** The same where the requests wait. */
  lemma WaitingRetries(runs: set<string>, events: seq<Event>, call: Batch.BatchCall, visits: seq<Batch.Visit>, pids: seq<nat>)
    returns (more: seq<Event>)
    requires Batch.RetrySequence(true, call, visits) && call.items != []
    requires Run(Init(runs), events).store == visits[0].before && Waiting(Run(Init(runs), events), call, visits, pids, 0)
    ensures var s, s' := Run(Init(runs), events), Run(Init(runs), events + more);
            s'.store == visits[|visits| - 1].after.st && RowsMatchCreations(s, s', call)
  {
    more := VisitsInTurn(runs, events, call, visits, pids, |visits|);
    forall i | 0 <= i < |call.items|
      ensures var s, s', slot := Run(Init(runs), events), Run(Init(runs), events + more), Batch.SlotOf(call, i);
              && OkRows(s.store.calls, slot) <= OkRows(s'.store.calls, slot) <= 1
              && Count(s'.log, Creations, slot) - Count(s.log, Creations, slot) == OkRows(s'.store.calls, slot) - OkRows(s.store.calls, slot)
    {
      Batch.RetriesOnTheStorage(true, call, visits, i);
    }
  }
}

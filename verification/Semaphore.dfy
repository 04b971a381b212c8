/** The counting semaphore around QA runs: a buffered channel of MaxConcurrency slots, any number of callers,
    each with a finite list of calls it makes one after the other, as the repair loop does. */
module Semaphore {

  // ---------- one run ----------

  datatype QAError = ConcurrencyExceeded | CommandInvalid | CommandEmpty | NotAllowed | WorkdirInvalid | CommandError
  datatype Answer = Answered | Refused(error: QAError)

  /** What one call meets: a slot or the end of its context, the checks in order, the command's result. */
  datatype RunEnv = RunEnv(gotSlot: bool, commandOk: bool, lineOk: bool, nonEmpty: bool, allowed: bool, workdirOk: bool,
                           dryRun: bool, commandResult: Answer)

  class Runner {
    const capacity: nat
    var slots: nat

    ghost predicate Valid()
      reads this
    {
      slots <= capacity
    }

    constructor (maxConcurrency: int)
      ensures Valid() && slots == 0 && capacity == (if maxConcurrency <= 0 then 2 else maxConcurrency)
    {
      capacity := if maxConcurrency <= 0 then 2 else maxConcurrency;
      slots := 0;
    }

    /** The part of `Run` behind the deferred release: seven ways out, none of which touches the slots. */
    method RunHeld(env: RunEnv) returns (answer: Answer)
      ensures answer == if !env.commandOk || !env.lineOk then Refused(CommandInvalid)
                        else if !env.nonEmpty then Refused(CommandEmpty)
                        else if !env.allowed then Refused(NotAllowed)
                        else if !env.workdirOk then Refused(WorkdirInvalid)
                        else if env.dryRun then Answered
                        else env.commandResult
    {
      if !env.commandOk || !env.lineOk {
        return Refused(CommandInvalid);
      }
      if !env.nonEmpty {
        return Refused(CommandEmpty);
      }
      if !env.allowed {
        return Refused(NotAllowed);
      }
      if !env.workdirOk {
        return Refused(WorkdirInvalid);
      }
      if env.dryRun {
        return Answered;
      }
      return env.commandResult;
    }

    /** Whatever happens, a call leaves as many slots taken as it found, and while its command ran exactly
        one more; without a slot nothing runs. */
    method Run(env: RunEnv) returns (answer: Answer, ghost during: nat)
      requires Valid() && (env.gotSlot ==> slots < capacity)
      modifies this
      ensures Valid() && slots == old(slots)
      ensures during == old(slots) + if env.gotSlot then 1 else 0
      ensures !env.gotSlot ==> answer == Refused(ConcurrencyExceeded)
      ensures env.gotSlot && env.commandOk && env.lineOk && env.nonEmpty && env.allowed && env.workdirOk ==>
                answer == if env.dryRun then Answered else env.commandResult
      ensures env.gotSlot && !(env.commandOk && env.lineOk && env.nonEmpty && env.allowed && env.workdirOk) ==> answer.Refused?
    {
      during := slots;
      if !env.gotSlot {
        return Refused(ConcurrencyExceeded), during;
      }
      slots := slots + 1;
      during := slots;
      answer := RunHeld(env);
      slots := slots - 1;
    }
  }

  // ---------- many callers ----------

  datatype Pc = Waiting | Holding

  /** `calls` still to make, the current one included; how often a slot was taken, given back, given up on. */
  datatype Caller = Caller(calls: nat, pc: Pc, cancelled: bool, taken: nat, released: nat, gaveUp: nat)

  datatype System = System(slots: nat, callers: seq<Caller>)

  /** A caller gets a slot, stops waiting because its context ended, or returns, with an error or without;
      and the environment ends a context. */
  datatype Event = Acquire(i: nat) | GiveUp(i: nat) | Return(i: nat) | Cancel(i: nat)

  predicate Unfinished(c: Caller) { c.calls > 0 }

  predicate Enabled(capacity: nat, s: System, e: Event) {
    && e.i < |s.callers| && Unfinished(s.callers[e.i])
    && var c := s.callers[e.i];
       match e
       case Acquire(_) => c.pc.Waiting? && s.slots < capacity
       case GiveUp(_) => c.pc.Waiting? && c.cancelled
       case Return(_) => c.pc.Holding? && s.slots > 0
       case Cancel(_) => !c.cancelled
  }

  function Stepped(s: System, e: Event): System
    requires e.i < |s.callers| && Unfinished(s.callers[e.i]) && (e.Return? ==> s.slots > 0)
  {
    var c := s.callers[e.i];
    match e
    case Acquire(i) => System(s.slots + 1, s.callers[i := c.(pc := Holding, taken := c.taken + 1)])
    case GiveUp(i) => System(s.slots, s.callers[i := c.(calls := c.calls - 1, gaveUp := c.gaveUp + 1)])
    case Return(i) => System(s.slots - 1, s.callers[i := c.(calls := c.calls - 1, pc := Waiting, released := c.released + 1)])
    case Cancel(i) => System(s.slots, s.callers[i := c.(cancelled := true)])
  }

  function Next(capacity: nat, s: System, e: Event): System {
    if Enabled(capacity, s, e) then Stepped(s, e) else s
  }

  function RunAll(capacity: nat, s: System, events: seq<Event>): System {
    if events == [] then s else Next(capacity, RunAll(capacity, s, events[..|events| - 1]), events[|events| - 1])
  }

  function Init(calls: seq<nat>): System {
    System(0, seq(|calls|, i requires 0 <= i < |calls| => Caller(calls[i], Waiting, false, 0, 0, 0)))
  }

  function One(b: bool): nat { if b then 1 else 0 }

  function Held(callers: seq<Caller>): nat {
    if callers == [] then 0 else Held(callers[..|callers| - 1]) + One(callers[|callers| - 1].pc.Holding?)
  }

  lemma {:induction false} HeldUpdate(callers: seq<Caller>, i: nat, c: Caller)
    requires i < |callers|
    ensures Held(callers[i := c]) == Held(callers) - One(callers[i].pc.Holding?) + One(c.pc.Holding?)
  {
    var last := |callers| - 1;
    if i < last {
      assert callers[i := c][..last] == callers[..last][i := c];
      HeldUpdate(callers[..last], i, c);
    } else {
      assert callers[i := c][..last] == callers[..last];
    }
  }

  lemma {:induction false} HeldWitness(callers: seq<Caller>) returns (i: nat)
    requires Held(callers) > 0
    ensures i < |callers| && callers[i].pc.Holding?
  {
    i := |callers| - 1;
    if !callers[i].pc.Holding? { i := HeldWitness(callers[..i]); }
  }

  lemma {:induction false} HolderCounts(callers: seq<Caller>, i: nat)
    requires i < |callers| && callers[i].pc.Holding?
    ensures Held(callers) > 0
  {
    if i < |callers| - 1 { HolderCounts(callers[..|callers| - 1], i); }
  }

  /** A caller's own books: it returned a slot once for every slot it took, but for the one it holds, and
      it holds one only inside a call. */
  predicate Booked(c: Caller) {
    c.taken == c.released + One(c.pc.Holding?) && (c.pc.Holding? ==> Unfinished(c))
  }

  ghost predicate Inv(capacity: nat, s: System) {
    && s.slots == Held(s.callers) && s.slots <= capacity
    && forall i | 0 <= i < |s.callers| :: Booked(s.callers[i])
  }

  lemma {:induction false} HeldNone(callers: seq<Caller>)
    requires forall i | 0 <= i < |callers| :: callers[i].pc.Waiting?
    ensures Held(callers) == 0
  {
    if callers != [] { HeldNone(callers[..|callers| - 1]); }
  }

  lemma StepKeepsInv(capacity: nat, s: System, e: Event)
    requires Inv(capacity, s)
    ensures Inv(capacity, Next(capacity, s, e))
  {
    if Enabled(capacity, s, e) {
      assert Booked(s.callers[e.i]);
      HeldUpdate(s.callers, e.i, Stepped(s, e).callers[e.i]);
    }
  }

  /** Main result: at every point of every interleaving the slots taken are the callers between acquiring
      and returning, never more than MaxConcurrency; each caller gave back every slot it took but the one
      it holds, and one that gave up holds none. */
  lemma {:induction false} SlotsAlwaysMatch(capacity: nat, calls: seq<nat>, events: seq<Event>)
    ensures Inv(capacity, RunAll(capacity, Init(calls), events))
  {
    if events == [] {
      HeldNone(Init(calls).callers);
    } else {
      SlotsAlwaysMatch(capacity, calls, events[..|events| - 1]);
      StepKeepsInv(capacity, RunAll(capacity, Init(calls), events[..|events| - 1]), events[|events| - 1]);
    }
  }

  // ---------- progress ----------

  /** Events left for the callers themselves: two a call, less the acquisition already made. */
  function LeftOf(c: Caller): nat { if c.calls == 0 then 0 else 2 * c.calls - One(c.pc.Holding?) }

  function Left(callers: seq<Caller>): nat {
    if callers == [] then 0 else Left(callers[..|callers| - 1]) + LeftOf(callers[|callers| - 1])
  }

  lemma {:induction false} LeftUpdate(callers: seq<Caller>, i: nat, c: Caller)
    requires i < |callers|
    ensures Left(callers[i := c]) == Left(callers) - LeftOf(callers[i]) + LeftOf(c)
  {
    var last := |callers| - 1;
    if i < last {
      assert callers[i := c][..last] == callers[..last][i := c];
      LeftUpdate(callers[..last], i, c);
    } else {
      assert callers[i := c][..last] == callers[..last];
    }
  }

  lemma StepUsesUp(capacity: nat, s: System, e: Event)
    requires Enabled(capacity, s, e)
    ensures if e.Cancel? then Left(Stepped(s, e).callers) == Left(s.callers) else Left(Stepped(s, e).callers) < Left(s.callers)
  {
    LeftUpdate(s.callers, e.i, Stepped(s, e).callers[e.i]);
  }

  /** How many of the events were steps of callers that took place. */
  function Steps(capacity: nat, s: System, events: seq<Event>): nat {
    if events == [] then 0
    else
      var before, last := events[..|events| - 1], events[|events| - 1];
      Steps(capacity, s, before) + One(!last.Cancel? && Enabled(capacity, RunAll(capacity, s, before), last))
  }

  /** Every interleaving is finite: callers take no more steps than twice their calls. */
  lemma {:induction false} RunsEnd(capacity: nat, s: System, events: seq<Event>)
    ensures Steps(capacity, s, events) + Left(RunAll(capacity, s, events).callers) <= Left(s.callers)
  {
    if events != [] {
      var before, last := events[..|events| - 1], events[|events| - 1];
      RunsEnd(capacity, s, before);
      if Enabled(capacity, RunAll(capacity, s, before), last) { StepUsesUp(capacity, RunAll(capacity, s, before), last); }
    }
  }

  /** Main result: no deadlock. While any caller has a call to make, some caller can acquire a slot or
      return one, whether or not contexts end; with `RunsEnd`, all calls end in every fair interleaving. */
  lemma NoDeadlock(capacity: nat, calls: seq<nat>, events: seq<Event>, i: nat) returns (e: Event)
    requires capacity >= 1 && i < |RunAll(capacity, Init(calls), events).callers|
    requires Unfinished(RunAll(capacity, Init(calls), events).callers[i])
    ensures (e.Acquire? || e.Return?) && Enabled(capacity, RunAll(capacity, Init(calls), events), e)
  {
    var s := RunAll(capacity, Init(calls), events);
    SlotsAlwaysMatch(capacity, calls, events);
    if s.slots > 0 {
      var j := HeldWitness(s.callers);
      assert Booked(s.callers[j]);
      e := Return(j);
    } else {
      if s.callers[i].pc.Holding? { HolderCounts(s.callers, i); }
      e := Acquire(i);
    }
  }
}

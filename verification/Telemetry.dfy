/** The repair-loop counters of the metrics registry. */
module Telemetry {

  datatype Metric = MetricPass | MetricFail | MetricTimeout | MetricError
  datatype Kind = KindTest | KindLint
  datatype Completion = Success | QAFailed | RollbackError | CodeError

  type QATable = map<(Kind, Metric), nat>

  function Bump<K>(m: map<K, nat>, k: K): map<K, nat> {
    m[k := Reading(m, k) + 1]
  }

  /** A label never incremented reads zero. */
  function Reading<K>(m: map<K, nat>, k: K): nat {
    if k in m then m[k] else 0
  }

  lemma ReadingBump<K>(m: map<K, nat>, k: K, other: K)
    ensures Reading(Bump(m, k), other) == Reading(m, other) + if other == k then 1 else 0
  {
  }

  datatype Counters = Counters(iterations: map<bool, nat>, qaResults: QATable, completed: map<Completion, nat>,
                               rollbacks: map<bool, nat>)

  const ZERO := Counters(map[], map[], map[], map[])

  function IterationsTotal(c: Counters): nat { Reading(c.iterations, true) + Reading(c.iterations, false) }

  function ResultsTotal(c: Counters, kind: Kind): nat {
    Reading(c.qaResults, (kind, MetricPass)) + Reading(c.qaResults, (kind, MetricFail))
    + Reading(c.qaResults, (kind, MetricTimeout)) + Reading(c.qaResults, (kind, MetricError))
  }

  lemma ResultsTotalBump(c: Counters, kind: Kind, metric: Metric, other: Kind)
    ensures ResultsTotal(c.(qaResults := Bump(c.qaResults, (kind, metric))), other) == ResultsTotal(c, other) + if other == kind then 1 else 0
  {
    ReadingBump(c.qaResults, (kind, metric), (other, MetricPass));
    ReadingBump(c.qaResults, (kind, metric), (other, MetricFail));
    ReadingBump(c.qaResults, (kind, metric), (other, MetricTimeout));
    ReadingBump(c.qaResults, (kind, metric), (other, MetricError));
  }

  class Registry {
    var repairIterations: map<bool, nat>
    var repairQAResults: QATable
    var repairCompleted: map<Completion, nat>
    var repairRollbacks: map<bool, nat>

    function View(): Counters
      reads this
    {
      Counters(repairIterations, repairQAResults, repairCompleted, repairRollbacks)
    }

    constructor ()
      ensures View() == ZERO
    {
      repairIterations, repairQAResults, repairCompleted, repairRollbacks := map[], map[], map[], map[];
    }

    method IncRepairIteration(passed: bool)
      modifies this`repairIterations
      ensures repairIterations == Bump(old(repairIterations), passed)
    {
      repairIterations := Bump(repairIterations, passed);
    }

    method IncRepairQAResult(kind: Kind, metric: Metric)
      modifies this`repairQAResults
      ensures repairQAResults == Bump(old(repairQAResults), (kind, metric))
    {
      repairQAResults := Bump(repairQAResults, (kind, metric));
    }

    method IncRepairCompleted(outcome: Completion)
      modifies this`repairCompleted
      ensures repairCompleted == Bump(old(repairCompleted), outcome)
    {
      repairCompleted := Bump(repairCompleted, outcome);
    }

    method IncRepairRollback(succeeded: bool)
      modifies this`repairRollbacks
      ensures repairRollbacks == Bump(old(repairRollbacks), succeeded)
    {
      repairRollbacks := Bump(repairRollbacks, succeeded);
    }
  }
}

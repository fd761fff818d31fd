/** The aggregation engine, `HealthCheckServiceImpl.checkHealth`.

    The probes are visited in list order. Each one is first asked whether to
    run, given a read-only copy of the outcomes recorded so far; if it runs,
    its result is recorded under its position and the running status is
    updated. Filtering and running interleave probe by probe, so every
    `isPerformCheck` sees the results of all earlier executed probes. */
module HealthCheckServiceImpl {
  import opened Results
  import opened HealthCheckService
  import opened HealthCheck

  /** Which call an exception escaping `checkHealth` came from. */
  datatype Origin = FromIsPerformCheck | FromIsHealthy

  /** An exception that escapes `checkHealth`, and the probe that raised it. */
  datatype Escape = Escape(index: nat, origin: Origin)

  /** The evaluation after some prefix of the probes: still going, with the
      running status and the outcome map, or ended by an escaping exception. */
  datatype Progress = Running(status: Status, statuses: Outcomes) | Escaped(escape: Escape)

  /** The value `checkHealth` stores for a probe that ran and did not escape
      is `true`: it returned true, rather than false or an `Exception`. */
  predicate RecordsTrue(h: HealthResult)
  {
    h == Returns(true)
  }

  /** One probe's turn: ask it, then run it or skip it. `isPerformCheck` is
      called outside the try block, so whatever it throws escapes; inside,
      only an `Exception` is caught, so an `Error` escapes as well. */
  function Step(probe: Probe, index: nat, parameters: Params, status: Status, statuses: Outcomes): Progress
  {
    match probe.isPerformCheck(statuses)
    case Skip => Running(status, statuses)
    case Throw => Escaped(Escape(index, FromIsPerformCheck))
    case Run =>
      match probe.isHealthy(parameters)
      case Returns(healthy) => Running(if healthy then status else Unhealthy, statuses[index := healthy])
      case ThrowsException => Running(Failed, statuses[index := false])
      case ThrowsError => Escaped(Escape(index, FromIsHealthy))
  }

  /** The evaluation after the first `n` probes have had their turn. */
  function Prefix(probes: seq<Probe>, parameters: Params, n: nat): Progress
    requires n <= |probes|
  {
    if n == 0 then Running(Healthy, map[])
    else
      match Prefix(probes, parameters, n - 1)
      case Escaped(e) => Escaped(e)
      case Running(status, statuses) => Step(probes[n - 1], n - 1, parameters, status, statuses)
  }

  /** `checkHealth`: the final status, or the exception that escaped. */
  function CheckHealth(probes: seq<Probe>, parameters: Params): Result<Status, Escape>
  {
    match Prefix(probes, parameters, |probes|)
    case Running(status, _) => Ok(status)
    case Escaped(e) => Err(e)
  }

  /** Probe `i` was asked whether to run: no earlier probe escaped. */
  predicate Reached(probes: seq<Probe>, parameters: Params, i: nat)
    requires i < |probes|
  {
    Prefix(probes, parameters, i).Running?
  }

  /** The read-only view of prior outcomes passed to probe `i`. */
  function View(probes: seq<Probe>, parameters: Params, i: nat): Outcomes
    requires i < |probes| && Reached(probes, parameters, i)
  {
    Prefix(probes, parameters, i).statuses
  }

  /** What probe `i`'s `isPerformCheck` answered on the view it was given. */
  function DecisionAt(probes: seq<Probe>, parameters: Params, i: nat): Decision
    requires i < |probes| && Reached(probes, parameters, i)
  {
    probes[i].isPerformCheck(View(probes, parameters, i))
  }

  /** Probe `i` was executed: it was reached and chose to run, so its
      `isHealthy` was invoked. */
  predicate Ran(probes: seq<Probe>, parameters: Params, i: nat)
    requires i < |probes|
  {
    Reached(probes, parameters, i) && DecisionAt(probes, parameters, i) == Run
  }

  /** Once an exception escapes, no later probe is consulted and the
      evaluation stays as it ended. */
  lemma {:induction false} EscapeIsFinal(probes: seq<Probe>, parameters: Params, m: nat, n: nat)
    requires m <= n <= |probes|
    requires Prefix(probes, parameters, m).Escaped?
    ensures Prefix(probes, parameters, n) == Prefix(probes, parameters, m)
    decreases n - m
  {
    if m < n {
      EscapeIsFinal(probes, parameters, m, n - 1);
    }
  }

  /** Every probe before an evaluation that is still running was reached. */
  lemma EarlierReached(probes: seq<Probe>, parameters: Params, n: nat)
    requires n <= |probes|
    requires Prefix(probes, parameters, n).Running?
    ensures forall j :: 0 <= j < n ==> Reached(probes, parameters, j)
  {
  }

  /** The outcome map after `n` probes holds exactly the earlier probes that
      were executed — a skipped probe has no entry — and maps each to the
      value its `isHealthy` produced, `false` for one that threw. Applied at
      `n = i` this describes the view passed to probe `i`. */
  lemma {:induction false} OutcomeMapInvariant(probes: seq<Probe>, parameters: Params, n: nat)
    requires n <= |probes|
    requires Prefix(probes, parameters, n).Running?
    ensures forall j: nat :: j in Prefix(probes, parameters, n).statuses <==> j < n && Ran(probes, parameters, j)
    ensures forall j :: j in Prefix(probes, parameters, n).statuses ==>
      Prefix(probes, parameters, n).statuses[j] == RecordsTrue(probes[j].isHealthy(parameters))
  {
    if n > 0 {
      OutcomeMapInvariant(probes, parameters, n - 1);
    }
  }

  /** One probe's turn, stated on the evaluation: a skipped probe changes
      nothing; a probe returning true records `true` under a fresh key and
      keeps the status; one returning false records `false` and sets
      `Unhealthy`, even over `Failed`; one throwing an `Exception` records
      `false` and sets `Failed`; an exception from `isPerformCheck`, or an
      `Error` from `isHealthy`, ends the evaluation. */
  lemma StepLaw(probes: seq<Probe>, parameters: Params, n: nat)
    requires n < |probes| && Reached(probes, parameters, n)
    ensures var before := Prefix(probes, parameters, n);
            var after := Prefix(probes, parameters, n + 1);
            var result := probes[n].isHealthy(parameters);
            && n !in before.statuses
            && (DecisionAt(probes, parameters, n) == Skip ==> after == before)
            && (DecisionAt(probes, parameters, n) == Throw ==> after == Escaped(Escape(n, FromIsPerformCheck)))
            && (Ran(probes, parameters, n) && result == Returns(true) ==>
                  after == Running(before.status, before.statuses[n := true]))
            && (Ran(probes, parameters, n) && result == Returns(false) ==>
                  after == Running(Unhealthy, before.statuses[n := false]))
            && (Ran(probes, parameters, n) && result == ThrowsException ==>
                  after == Running(Failed, before.statuses[n := false]))
            && (Ran(probes, parameters, n) && result == ThrowsError ==>
                  after == Escaped(Escape(n, FromIsHealthy)))
  {
    OutcomeMapInvariant(probes, parameters, n);
  }

  /** The loop as the Java code runs it: a mutable status and outcome map,
      updated probe by probe, left as soon as an exception escapes. */
  method CheckHealthLoop(probes: seq<Probe>, parameters: Params) returns (r: Result<Status, Escape>)
    ensures r == CheckHealth(probes, parameters)
  {
    var status := Healthy;
    var statuses: Outcomes := map[];
    var i := 0;
    while i < |probes|
      invariant 0 <= i <= |probes|
      invariant Prefix(probes, parameters, i) == Running(status, statuses)
    {
      var probe := probes[i];
      var decision := probe.isPerformCheck(statuses);
      if decision == Throw {
        EscapeIsFinal(probes, parameters, i + 1, |probes|);
        return Err(Escape(i, FromIsPerformCheck));
      }
      if decision == Run {
        var result := probe.isHealthy(parameters);
        match result
        case Returns(healthy) =>
          statuses := statuses[i := healthy];
          if !healthy {
            status := Unhealthy;
          }
        case ThrowsException =>
          statuses := statuses[i := false];
          status := Failed;
        case ThrowsError =>
          EscapeIsFinal(probes, parameters, i + 1, |probes|);
          return Err(Escape(i, FromIsHealthy));
      }
      i := i + 1;
    }
    r := Ok(status);
  }
}

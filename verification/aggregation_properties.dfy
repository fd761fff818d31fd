/** What `checkHealth` guarantees about its result: how the final status
    follows from the executed probes, when an exception escapes, and the
    edge cases of skipping and of the default run policy. */
module AggregationProperties {
  import opened Results
  import opened HealthCheckService
  import opened HealthCheck
  import opened HealthCheckServiceImpl

  /** Probe `j` was executed and did not pass: it returned false or threw. */
  predicate Problem(probes: seq<Probe>, parameters: Params, j: nat)
    requires j < |probes|
  {
    Ran(probes, parameters, j) && !RecordsTrue(probes[j].isHealthy(parameters))
  }

  /** Probe `j` is the last of the first `n` probes that was executed and did
      not pass. */
  predicate LastProblem(probes: seq<Probe>, parameters: Params, n: nat, j: nat)
    requires n <= |probes|
  {
    && j < n
    && Problem(probes, parameters, j)
    && forall k :: j < k < n ==> !Problem(probes, parameters, k)
  }

  /** The status a problem probe leaves behind. */
  function StatusAfter(h: HealthResult): Status
  {
    if h == ThrowsException then Failed else Unhealthy
  }

  /** How one probe's turn moves the running status: a problem probe sets
      the status its result calls for, any other probe leaves it alone. */
  lemma StatusStep(probes: seq<Probe>, parameters: Params, m: nat)
    requires m < |probes|
    requires Prefix(probes, parameters, m + 1).Running?
    ensures Prefix(probes, parameters, m).Running?
    ensures Problem(probes, parameters, m) ==>
      Prefix(probes, parameters, m + 1).status == StatusAfter(probes[m].isHealthy(parameters))
    ensures !Problem(probes, parameters, m) ==>
      Prefix(probes, parameters, m + 1).status == Prefix(probes, parameters, m).status
  {
  }

  /** The running status after `n` probes is `Healthy` exactly when none of
      them was executed without passing. */
  lemma {:induction false} HealthyIffNoProblem(probes: seq<Probe>, parameters: Params, n: nat)
    requires n <= |probes|
    requires Prefix(probes, parameters, n).Running?
    ensures Prefix(probes, parameters, n).status == Healthy <==>
      forall j :: 0 <= j < n ==> !Problem(probes, parameters, j)
  {
    if n > 0 {
      StatusStep(probes, parameters, n - 1);
      HealthyIffNoProblem(probes, parameters, n - 1);
    }
  }

  /** When the running status after `n` probes is not `Healthy`, some probe
      among them is the last one executed without passing. */
  lemma {:induction false} SomeLastProblem(probes: seq<Probe>, parameters: Params, n: nat)
    requires n <= |probes|
    requires Prefix(probes, parameters, n).Running?
    requires Prefix(probes, parameters, n).status != Healthy
    ensures exists j :: 0 <= j < n && LastProblem(probes, parameters, n, j)
  {
    var m := n - 1;
    StatusStep(probes, parameters, m);
    if Problem(probes, parameters, m) {
      assert LastProblem(probes, parameters, n, m);
    } else {
      SomeLastProblem(probes, parameters, m);
      var j :| 0 <= j < m && LastProblem(probes, parameters, m, j);
      assert LastProblem(probes, parameters, n, j);
    }
  }

  /** The running status after `n` probes is the one left by the last probe
      among them that was executed and did not pass: `Failed` if it threw,
      `Unhealthy` if it returned false. */
  lemma {:induction false} LastProblemDecides(probes: seq<Probe>, parameters: Params, n: nat, j: nat)
    requires n <= |probes|
    requires Prefix(probes, parameters, n).Running?
    requires LastProblem(probes, parameters, n, j)
    ensures Prefix(probes, parameters, n).status == StatusAfter(probes[j].isHealthy(parameters))
  {
    var m := n - 1;
    StatusStep(probes, parameters, m);
    if j < m {
      assert !Problem(probes, parameters, m);
      assert LastProblem(probes, parameters, m, j);
      LastProblemDecides(probes, parameters, m, j);
    }
  }

  /** The contract the `Status` constants document, as `checkHealth` meets it
      when it returns: `Healthy` exactly when every executed check passed;
      `Unhealthy` only if some executed check returned false; `Failed` only
      if some executed check threw. */
  lemma StatusContract(probes: seq<Probe>, parameters: Params)
    requires CheckHealth(probes, parameters).Ok?
    ensures CheckHealth(probes, parameters).value == Healthy <==>
      forall j :: 0 <= j < |probes| && Ran(probes, parameters, j) ==> probes[j].isHealthy(parameters) == Returns(true)
    ensures CheckHealth(probes, parameters).value == Unhealthy ==>
      exists j :: 0 <= j < |probes| && Ran(probes, parameters, j) && probes[j].isHealthy(parameters) == Returns(false)
    ensures CheckHealth(probes, parameters).value == Failed ==>
      exists j :: 0 <= j < |probes| && Ran(probes, parameters, j) && probes[j].isHealthy(parameters) == ThrowsException
  {
    var n := |probes|;
    HealthyIffNoProblem(probes, parameters, n);
    var status := CheckHealth(probes, parameters).value;
    if status != Healthy {
      SomeLastProblem(probes, parameters, n);
      var j :| 0 <= j < n && LastProblem(probes, parameters, n, j);
      LastProblemDecides(probes, parameters, n, j);
      assert Ran(probes, parameters, j) && probes[j].isHealthy(parameters) != Returns(true);
      if probes[j].isHealthy(parameters) == ThrowsError {
        StepLaw(probes, parameters, j);
        EscapeIsFinal(probes, parameters, j + 1, n);
      }
    } else {
      forall j | 0 <= j < n && Ran(probes, parameters, j)
        ensures probes[j].isHealthy(parameters) == Returns(true)
      {
        assert !Problem(probes, parameters, j);
      }
    }
  }

  /** Probe `i` ends the evaluation with an escaping exception: its
      `isPerformCheck` threw, or it ran and its `isHealthy` threw an `Error`. */
  predicate Escapes(probes: seq<Probe>, parameters: Params, i: nat)
    requires i < |probes|
  {
    && Reached(probes, parameters, i)
    && (|| DecisionAt(probes, parameters, i) == Throw
        || (DecisionAt(probes, parameters, i) == Run && probes[i].isHealthy(parameters) == ThrowsError))
  }

  /** An exception leaves `checkHealth` exactly when some reached probe
      throws from `isPerformCheck` (which sits outside the try block) or
      throws an `Error` from `isHealthy`; the escape names that probe and the
      call it came from. */
  lemma {:induction false} EscapeCharacterization(probes: seq<Probe>, parameters: Params, n: nat)
    requires n <= |probes|
    ensures Prefix(probes, parameters, n).Escaped? <==>
      exists i :: 0 <= i < n && Escapes(probes, parameters, i)
    ensures Prefix(probes, parameters, n).Escaped? ==>
      var e := Prefix(probes, parameters, n).escape;
      && e.index < n
      && Escapes(probes, parameters, e.index)
      && (e.origin == FromIsPerformCheck <==> DecisionAt(probes, parameters, e.index) == Throw)
  {
    if n > 0 {
      var m := n - 1;
      EscapeCharacterization(probes, parameters, m);
      if Prefix(probes, parameters, m).Running? {
        StepLaw(probes, parameters, m);
        assert Prefix(probes, parameters, n).Escaped? <==> Escapes(probes, parameters, m);
      } else {
        var e := Prefix(probes, parameters, m).escape;
        assert Escapes(probes, parameters, e.index);
      }
    }
  }

  /** A check that throws an `Exception` is contained: when no
      `isPerformCheck` throws and no `isHealthy` throws an `Error`, every
      probe is reached and `checkHealth` returns a status. */
  lemma ExceptionsAreContained(probes: seq<Probe>, parameters: Params)
    requires forall i, m :: 0 <= i < |probes| ==> probes[i].isPerformCheck(m) != Throw
    requires forall i :: 0 <= i < |probes| ==> probes[i].isHealthy(parameters) != ThrowsError
    ensures CheckHealth(probes, parameters).Ok?
    ensures forall i :: 0 <= i < |probes| ==> Reached(probes, parameters, i)
  {
    EscapeCharacterization(probes, parameters, |probes|);
    EarlierReached(probes, parameters, |probes|);
  }

  /** When every probe declines to run on an empty view — the only view it
      is ever given in such a run — no `isHealthy` is invoked, nothing is
      recorded and the result is `Healthy`; with no probes at all this is the
      vacuous case. */
  lemma {:induction false} AllSkipped(probes: seq<Probe>, parameters: Params, n: nat)
    requires n <= |probes|
    requires forall i :: 0 <= i < |probes| ==> probes[i].isPerformCheck(map[]) == Skip
    ensures Prefix(probes, parameters, n) == Running(Healthy, map[])
    ensures forall i :: 0 <= i < n ==> !Ran(probes, parameters, i)
  {
    if n > 0 {
      AllSkipped(probes, parameters, n - 1);
    }
  }

  /** `checkHealth` over probes that all decline to run on an empty view. */
  lemma AllSkippedIsHealthy(probes: seq<Probe>, parameters: Params)
    requires forall i :: 0 <= i < |probes| ==> probes[i].isPerformCheck(map[]) == Skip
    ensures CheckHealth(probes, parameters) == Ok(Healthy)
    ensures forall i :: 0 <= i < |probes| ==> !Ran(probes, parameters, i)
  {
    AllSkipped(probes, parameters, |probes|);
  }

  /** Probes that always choose to run, and whose checks throw no `Error`,
      are all executed. */
  lemma {:induction false} AlwaysRunRunsAll(probes: seq<Probe>, parameters: Params, n: nat)
    requires n <= |probes|
    requires forall i, m :: 0 <= i < |probes| ==> probes[i].isPerformCheck(m) == Run
    requires forall i :: 0 <= i < |probes| ==> probes[i].isHealthy(parameters) != ThrowsError
    ensures Prefix(probes, parameters, n).Running?
    ensures forall i :: 0 <= i < n ==> Ran(probes, parameters, i)
  {
    if n > 0 {
      var m := n - 1;
      AlwaysRunRunsAll(probes, parameters, m);
      assert Ran(probes, parameters, m);
      StepLaw(probes, parameters, m);
    }
  }

  /** With the interface's default `isPerformCheck`, and no `Error` from any
      check, every probe is executed and recorded. */
  lemma DefaultPolicyRunsAll(checks: seq<Params -> HealthResult>, parameters: Params)
    requires forall i :: 0 <= i < |checks| ==> checks[i](parameters) != ThrowsError
    ensures var probes := WithDefaultPolicy(checks);
            && CheckHealth(probes, parameters).Ok?
            && (forall i :: 0 <= i < |probes| ==> Ran(probes, parameters, i))
            && (forall i: nat :: i in Prefix(probes, parameters, |probes|).statuses <==> i < |probes|)
  {
    var probes := WithDefaultPolicy(checks);
    AlwaysRunRunsAll(probes, parameters, |probes|);
    OutcomeMapInvariant(probes, parameters, |probes|);
  }

  /** A probe whose `isHealthy` ignores the parameters. */
  function Fixed(h: HealthResult): Params -> HealthResult
  {
    _ => h
  }

  /** Three default probes — healthy, unhealthy, throwing — record
      {0: true, 1: false, 2: false} and give `Failed`. */
  lemma ThreeProbeScenario(parameters: Params)
    ensures var probes := WithDefaultPolicy([Fixed(Returns(true)), Fixed(Returns(false)), Fixed(ThrowsException)]);
            && Prefix(probes, parameters, 3) == Running(Failed, map[0 := true, 1 := false, 2 := false])
            && CheckHealth(probes, parameters) == Ok(Failed)
  {
    var probes := WithDefaultPolicy([Fixed(Returns(true)), Fixed(Returns(false)), Fixed(ThrowsException)]);
    assert probes[0].isHealthy(parameters) == Returns(true);
    assert probes[1].isHealthy(parameters) == Returns(false);
    assert probes[2].isHealthy(parameters) == ThrowsException;
    assert Prefix(probes, parameters, 1) == Running(Healthy, map[0 := true]);
    assert Prefix(probes, parameters, 2) == Running(Unhealthy, map[0 := true, 1 := false]);
  }

  /** `Failed` is not sticky: a later probe returning false turns it into
      `Unhealthy`, while a later probe returning true leaves it in place. */
  lemma FailedIsNotSticky(parameters: Params)
    ensures CheckHealth(WithDefaultPolicy([Fixed(ThrowsException), Fixed(Returns(false))]), parameters) == Ok(Unhealthy)
    ensures CheckHealth(WithDefaultPolicy([Fixed(ThrowsException), Fixed(Returns(true))]), parameters) == Ok(Failed)
  {
    var overwritten := WithDefaultPolicy([Fixed(ThrowsException), Fixed(Returns(false))]);
    assert overwritten[0].isHealthy(parameters) == ThrowsException;
    assert overwritten[1].isHealthy(parameters) == Returns(false);
    assert Prefix(overwritten, parameters, 1) == Running(Failed, map[0 := false]);
    assert Prefix(overwritten, parameters, 2) == Running(Unhealthy, map[0 := false, 1 := false]);
    var kept := WithDefaultPolicy([Fixed(ThrowsException), Fixed(Returns(true))]);
    assert kept[0].isHealthy(parameters) == ThrowsException;
    assert kept[1].isHealthy(parameters) == Returns(true);
    assert Prefix(kept, parameters, 1) == Running(Failed, map[0 := false]);
    assert Prefix(kept, parameters, 2) == Running(Failed, map[0 := false, 1 := true]);
  }

  /** Skips the probe when the first probe is recorded as unhealthy. */
  function SkipIfFirstFailed(prior: Outcomes): Decision
  {
    if 0 in prior && !prior[0] then Skip else Run
  }

  /** A probe that observes a prior `false` and declines to run gets no entry,
      and the result is the `Unhealthy` of the earlier probe alone. */
  lemma SkipOnPriorFailureScenario(parameters: Params)
    ensures var probes := [Probe(DefaultIsPerformCheck, Fixed(Returns(false))),
                           Probe(SkipIfFirstFailed, Fixed(ThrowsException))];
            && Prefix(probes, parameters, 2) == Running(Unhealthy, map[0 := false])
            && !Ran(probes, parameters, 1)
  {
    var probes := [Probe(DefaultIsPerformCheck, Fixed(Returns(false))),
                   Probe(SkipIfFirstFailed, Fixed(ThrowsException))];
    assert probes[0].isHealthy(parameters) == Returns(false);
    assert Prefix(probes, parameters, 1) == Running(Unhealthy, map[0 := false]);
    assert probes[1].isPerformCheck(map[0 := false]) == Skip;
  }

  /** Throws from `isPerformCheck`. */
  function ThrowingPolicy(prior: Outcomes): Decision
  {
    Throw
  }

  /** An exception from `isPerformCheck` is not isolated: it escapes
      `checkHealth`, and no later probe is consulted. */
  lemma PolicyExceptionEscapes(parameters: Params)
    ensures var probes := [Probe(ThrowingPolicy, Fixed(Returns(true))),
                           Probe(DefaultIsPerformCheck, Fixed(Returns(true)))];
            && CheckHealth(probes, parameters) == Err(Escape(0, FromIsPerformCheck))
            && !Reached(probes, parameters, 1)
  {
    var probes := [Probe(ThrowingPolicy, Fixed(Returns(true))),
                   Probe(DefaultIsPerformCheck, Fixed(Returns(true)))];
    assert probes[0].isPerformCheck(map[]) == Throw;
    assert Prefix(probes, parameters, 1) == Escaped(Escape(0, FromIsPerformCheck));
  }
}

# SentinelCore health aggregation, modelled in Dafny

This project models the health-check core of SentinelCore, a Spring service
that aggregates readiness probes:

- the probe contract `HealthCheck`: the `quick` flag extractor `isQuick`, the
  `PARAMETER_QUICK` key and the default `isPerformCheck`;
- the `Status` enum of `HealthCheckService` and the meaning its comments give
  each constant;
- the aggregation engine `HealthCheckServiceImpl.checkHealth`;
- the three endpoints of `HealthCheckController` (`/health`, `/health/db`,
  `/health/status`), reduced to the status code and body they send.

Files and modules:

| file | module | contents |
|---|---|---|
| `results.dfy` | `Results` | `Option` (Java's `null`) and `Result` (a value or an escaping exception) |
| `health_check_service.dfy` | `HealthCheckService` | `Status = Failed \| Healthy \| Unhealthy` |
| `health_check.dfy` | `HealthCheck` | parameter values, `IsQuick`, `Probe`, `DefaultIsPerformCheck` |
| `health_check_service_impl.dfy` | `HealthCheckServiceImpl` | the fold `Prefix`/`CheckHealth`, the loop `CheckHealthLoop`, outcome-map lemmas |
| `aggregation_properties.dfy` | `AggregationProperties` | how the final status follows from the executed probes, escapes, skips, scenarios |
| `health_check_controller.dfy` | `HealthCheckController` | the endpoints' status codes and bodies |

How the Java maps onto the model:

- **Probe.** A probe is a pair of functions. `isPerformCheck` maps the outcome
  map to `Run`, `Skip` or `Throw`. `isHealthy` maps the parameters to
  `Returns(b)`, `ThrowsException` or `ThrowsError`. `ThrowsError` stands for a
  `java.lang.Error`, which `catch (Exception ex)` does not catch.
- **Outcome map.** It is keyed by the probe's position in the list, standing in
  for the `IdentityHashMap`. Probe instances are assumed to be distinct.
- **The fold.** The stream's `filter` and `forEach` are fused per element.
  `Step` therefore asks one probe and then runs or skips it before the next
  probe is asked. `Prefix(probes, p, n)` is the evaluation after `n` probes:
  either `Running(status, statuses)` or `Escaped(escape)`.
- **Views.** The view passed to probe `i` is `Prefix(probes, p, i).statuses`.
  Java passes a live unmodifiable view, so later entries show through it.
  The model's snapshot equals that live view at the moment each
  `isPerformCheck` is called. A probe that keeps the view and reads it
  later is outside the model, because probes are pure functions of their
  inputs.
- **Two implementations.** `CheckHealth` is the functional definition.
  `CheckHealthLoop` is the imperative loop the Java code runs, and it is proved
  equal to `CheckHealth`.
- **`isQuick`.** A parameter value is `Null`, `Text(s)` or `Items(values)`, the
  last for an `Iterable`. `String.valueOf` is `Render`. `Boolean.parseBoolean`
  is `ParseBoolean`, a case-insensitive comparison with "true". Only ASCII
  letters are folded. That is exact here: no other character case-maps onto a
  letter of "true".

## Model

| member | source | states |
|---|---|---|
| `HealthCheck.IsQuick` | src/main/java/com/daimlertrucksasia/it/dsc/SentinelCore/services/HealthCheck.java:47-56 | `isQuick` is true exactly when the `quick` key is present and the value it consults is a string equal to "true" ignoring case. That value is the scalar itself, or the first element of a collection. An absent key, null, an empty collection, a nested collection or any other text gives false. For these values it does not throw |
| `HealthCheck.NonTextNeverTrue` | src/main/java/com/daimlertrucksasia/it/dsc/SentinelCore/services/HealthCheck.java:49-55 | the string form of null ("null") or of a collection (starting with '[') never parses as true |
| `HealthCheck.QuickExamples` | src/main/java/com/daimlertrucksasia/it/dsc/SentinelCore/services/HealthCheck.java:47-56 | "true" and "TRUE" give true, and `["true","false"]` gives true because only the first element counts. `["false","true"]`, no key, another key, "banana", null, `[]`, `[null]` and `[["true"]]` give false |
| `HealthCheckController.QuickFromQuery` | src/main/java/com/daimlertrucksasia/it/dsc/SentinelCore/services/HealthCheck.java:47-56 | for the string-valued query map of `/health/status`, `isQuick` is true exactly when `quick` is present and parses as true |
| `AggregationProperties.DefaultPolicyRunsAll` | src/main/java/com/daimlertrucksasia/it/dsc/SentinelCore/services/HealthCheck.java:68-70 | probes that keep the default `isPerformCheck` are all executed, whatever was recorded before them. Each gets an entry in the outcome map, and `checkHealth` returns a status, provided no check throws an `Error` |
| `AggregationProperties.AlwaysRunRunsAll` | src/main/java/com/daimlertrucksasia/it/dsc/SentinelCore/services/HealthCheckServiceImpl.java:60-81 | when every probe chooses to run and none throws an `Error`, every probe is executed |
| `HealthCheckServiceImpl.OutcomeMapInvariant` | src/main/java/com/daimlertrucksasia/it/dsc/SentinelCore/services/HealthCheckServiceImpl.java:55-71 | the outcome map after `n` probes, and so the view passed to probe `n`, has exactly the earlier probes that were executed as keys. A skipped probe has no entry. Each key maps to true exactly when that probe returned true, and to false when it returned false or threw |
| `HealthCheckServiceImpl.StepLaw` | src/main/java/com/daimlertrucksasia/it/dsc/SentinelCore/services/HealthCheckServiceImpl.java:60-81 | one probe's turn. A skip changes nothing. Returning true records `true` under a fresh key and keeps the status. Returning false records `false` and sets `UNHEALTHY`, even over `FAILED`. Throwing an `Exception` records `false` and sets `FAILED`. A throw from `isPerformCheck`, or an `Error` from `isHealthy`, ends the evaluation |
| `HealthCheckServiceImpl.EscapeIsFinal` | src/main/java/com/daimlertrucksasia/it/dsc/SentinelCore/services/HealthCheckServiceImpl.java:60-62 | once an exception escapes, no later probe is consulted and the outcome stays fixed |
| `HealthCheckServiceImpl.EarlierReached` | src/main/java/com/daimlertrucksasia/it/dsc/SentinelCore/services/HealthCheckServiceImpl.java:60-62 | while the evaluation is still running, every earlier probe was asked whether to run |
| `HealthCheckServiceImpl.CheckHealthLoop` | src/main/java/com/daimlertrucksasia/it/dsc/SentinelCore/services/HealthCheckServiceImpl.java:51-84 | the mutable-status loop computes the same status, or the same escaping exception, as the fold |
| `AggregationProperties.StatusStep` | src/main/java/com/daimlertrucksasia/it/dsc/SentinelCore/services/HealthCheckServiceImpl.java:70-80 | a probe that was executed and did not pass sets the status its result calls for. Any other probe leaves the status alone |
| `AggregationProperties.HealthyIffNoProblem` | src/main/java/com/daimlertrucksasia/it/dsc/SentinelCore/services/HealthCheckServiceImpl.java:52-83 | the running status is `HEALTHY` exactly when no executed probe returned false or threw. This covers the empty list |
| `AggregationProperties.SomeLastProblem` | src/main/java/com/daimlertrucksasia/it/dsc/SentinelCore/services/HealthCheckServiceImpl.java:52-83 | a status other than `HEALTHY` implies that some executed probe is the last one that did not pass |
| `AggregationProperties.LastProblemDecides` | src/main/java/com/daimlertrucksasia/it/dsc/SentinelCore/services/HealthCheckServiceImpl.java:72-80 | the last executed probe that did not pass fixes the status: `FAILED` if it threw, `UNHEALTHY` if it returned false |
| `AggregationProperties.StatusContract` | src/main/java/com/daimlertrucksasia/it/dsc/SentinelCore/services/HealthCheckService.java:20-36 | when `checkHealth` returns, the result means what the enum's comments say. `HEALTHY` holds exactly when every executed check returned true. `UNHEALTHY` only if some executed check returned false. `FAILED` only if some executed check threw |
| `AggregationProperties.EscapeCharacterization` | src/main/java/com/daimlertrucksasia/it/dsc/SentinelCore/services/HealthCheckServiceImpl.java:60-81 | an exception leaves `checkHealth` exactly when some reached probe throws from `isPerformCheck` (outside the try block) or throws an `Error` from `isHealthy`. The escape names that probe and which of the two calls threw |
| `AggregationProperties.ExceptionsAreContained` | src/main/java/com/daimlertrucksasia/it/dsc/SentinelCore/services/HealthCheckServiceImpl.java:68-81 | when no `isPerformCheck` throws and no check throws an `Error`, every probe is reached, including those after a throwing one, and a status is returned |
| `AggregationProperties.AllSkipped` | src/main/java/com/daimlertrucksasia/it/dsc/SentinelCore/services/HealthCheckServiceImpl.java:60-67 | when every probe declines to run on the empty view, which is the only view any of them is given in such a run, no `isHealthy` is invoked, the outcome map stays empty and the status stays `HEALTHY`. A policy that would run on some other view is covered |
| `AggregationProperties.AllSkippedIsHealthy` | src/main/java/com/daimlertrucksasia/it/dsc/SentinelCore/services/HealthCheckServiceImpl.java:52-83 | `checkHealth` returns `HEALTHY` over probes that all decline to run when shown the empty view, and over no probes at all |
| `AggregationProperties.ThreeProbeScenario` | src/main/java/com/daimlertrucksasia/it/dsc/SentinelCore/services/HealthCheckServiceImpl.java:52-83 | probes that are healthy, unhealthy and throwing record {0: true, 1: false, 2: false} and give `FAILED` |
| `AggregationProperties.FailedIsNotSticky` | src/main/java/com/daimlertrucksasia/it/dsc/SentinelCore/services/HealthCheckServiceImpl.java:72-80 | a throwing probe followed by a false one gives `UNHEALTHY`. A throwing probe followed by a true one gives `FAILED` |
| `AggregationProperties.SkipOnPriorFailureScenario` | src/main/java/com/daimlertrucksasia/it/dsc/SentinelCore/services/HealthCheckServiceImpl.java:61-71 | a probe that sees a prior `false` and skips gets no entry, and the result is the earlier probe's `UNHEALTHY` |
| `AggregationProperties.PolicyExceptionEscapes` | src/main/java/com/daimlertrucksasia/it/dsc/SentinelCore/services/HealthCheckServiceImpl.java:60-69 | a throw from the first probe's `isPerformCheck` escapes `checkHealth`, and the second probe is never consulted |
| `HealthCheckController.GetHealth` | src/main/java/com/daimlertrucksasia/it/dsc/SentinelCore/application/controller/HealthCheckController.java:48-51 | liveness always answers 200 with no body |
| `HealthCheckController.CheckDbHealth` | src/main/java/com/daimlertrucksasia/it/dsc/SentinelCore/application/controller/HealthCheckController.java:61-66 | `/db` answers 200 "Database is healthy" exactly when the database probe reports true, and 503 "Database is unhealthy" exactly when it reports false |
| `HealthCheckController.StatusCode` | src/main/java/com/daimlertrucksasia/it/dsc/SentinelCore/application/controller/HealthCheckController.java:83-90 | the code is 200 exactly for `HEALTHY`, 503 exactly for `UNHEALTHY`, and 500 exactly for `FAILED` or a null status |
| `HealthCheckController.QueryParameters` | src/main/java/com/daimlertrucksasia/it/dsc/SentinelCore/application/controller/HealthCheckController.java:82-83 | the query map reaches the probes with the same keys, each value a plain string |
| `HealthCheckController.StatusEndpoint` | src/main/java/com/daimlertrucksasia/it/dsc/SentinelCore/application/controller/HealthCheckController.java:81-91 | `/status` end to end. It fails with an exception exactly when some probe lets one escape. Otherwise it answers 200, 503 or 500 with no body: 200 exactly when every executed check passed, 503 only after a check returned false, 500 only after a check threw |

## Code versus documentation

The model follows the code where the code and its comments disagree:

- `FAILED` is not sticky. The comment of `checkHealth`
  (HealthCheckServiceImpl.java:45) says any exception marks the system
  `FAILED`. But a later probe returning false overwrites `FAILED` with
  `UNHEALTHY` (line 74 runs after line 79 of an earlier probe).
  `AggregationProperties.FailedIsNotSticky` exhibits it.
  `AggregationProperties.LastProblemDecides` states the general rule: the
  last executed probe that did not pass decides.
- An exception thrown by `isPerformCheck` is not isolated. The call at line 62
  sits outside the `try` at line 69, so the exception escapes `checkHealth`
  and, through it, the `/status` endpoint.
  `AggregationProperties.PolicyExceptionEscapes` exhibits it.
- The comments say any `false` result gives `UNHEALTHY`
  (HealthCheckServiceImpl.java:44) and a 503 (HealthCheckController.java:77).
  But a `false` result followed by a probe throwing an `Exception` gives
  `FAILED`, and so 500. A later throw from `isPerformCheck` gives no status
  at all. `AggregationProperties.LastProblemDecides` states the rule the
  code follows. `AggregationProperties.EscapeCharacterization` states when
  an exception escapes instead.
- Only `Exception` is caught (line 76). A `java.lang.Error` thrown by
  `isHealthy` escapes as well (`ThrowsError`).

## Left out

- `DatabaseHealthCheck`: JDBC I/O (`getConnection`, `isValid(1)`). It does not
  implement `HealthCheck`, so it is never one of the aggregated probes. Its
  boolean is the input of `CheckDbHealth`.
- `DataSourceConfig`: connection-pool configuration, with no logic.
- `ActuateController`: a wrapper over Spring Boot's actuator `Health`
  builder, which is not part of this model.
- Logging (HealthCheckServiceImpl.java:64,73,77), Spring annotations,
  dependency injection, and `ResponseEntity` construction beyond the status
  code and body.
- Spring's conversion of the `/db` request parameter `quick` to a boolean.
  The database probe ignores that flag.
- What real probes do (I/O, blocking, timeouts): each probe is an abstract
  pair of functions of its inputs.
- `IdentityHashMap` and Java stream mechanics: these are replaced by
  position-keyed maps and an explicit fold.
- Idempotence of `checkHealth` for identical inputs has no lemma. It holds
  because every member is a pure function.
- `HealthCheck.Render`: a collection element is rendered in the layout of
  `AbstractCollection.toString`. A top-level `Iterable` is `Items`, because
  `isQuick` unwraps it. An element is `Items` only when it is a collection
  that prints as "[...]". Any other element is `Text` of its
  `String.valueOf`. That includes an `Iterable` that prints differently,
  such as a `java.nio.file.Path` named "true". For values encoded this way,
  `IsQuick` returns what `isQuick` returns.
- `HealthCheck.IsQuick`: `isQuick` calls `iterable.iterator()` twice
  (HealthCheck.java:52), once for `hasNext()` and once for `next()`. A
  non-empty `Iterable` that hands out only one iterator, such as a
  `DirectoryStream`, makes the second call throw `IllegalStateException`,
  and that exception escapes `isQuick`. Such values are not encoded, so the
  model does not cover that exception. The `/health/status` endpoint passes
  only strings, so it never meets such a value.
- `ThrowsError` also stands for any other non-`Exception` `Throwable`, which
  likewise escapes the `catch`.

/** The probe contract: the request parameters a probe receives, the `quick`
    flag extractor, and the two things every probe does — decide whether to
    run given the outcomes recorded so far, and check its subsystem. */
module HealthCheck {

  /** One value of the parameter map as `isQuick` sees it.
      - `Null`: Java's `null`.
      - `Text(s)`: any object that `isQuick` does not unwrap, with `s` its
        `String.valueOf`.
      - `Items(values)`: at the top level, an `Iterable` whose `iterator()`
        can be called again and starts at the same first element each time,
        such as any collection (`isQuick` unwraps it to its first element);
        as an element, only a collection that
        prints as "[a, b, ...]". Any other element, including an `Iterable`
        with a different string form, is `Text` of that string form. */
  datatype ParamValue = Null | Text(text: string) | Items(elems: seq<ParamValue>)

  /** The parameter map handed to every probe (a Java `Map<String, ?>`). */
  type Params = map<string, ParamValue>

  /** The key that asks for a fast, shallow check. */
  const PARAMETER_QUICK: string := "quick"

  /** Lower-cases an ASCII letter and leaves every other character alone. */
  function AsciiLower(c: char): char
  {
    if 'A' <= c <= 'Z' then (c as int + 32) as char else c
  }

  /** Case-insensitive equality. Only ASCII letters are folded: no other
      character case-maps onto a letter of "true", the one word compared. */
  predicate EqualsIgnoringAsciiCase(s: string, t: string)
  {
    |s| == |t| && forall i :: 0 <= i < |s| ==> AsciiLower(s[i]) == AsciiLower(t[i])
  }

  /** `Boolean.parseBoolean`: true exactly for "true" in any letter case. */
  predicate ParseBoolean(s: string)
  {
    EqualsIgnoringAsciiCase(s, "true")
  }

  /** Joins strings with ", ", as a Java collection's `toString` does. */
  function JoinWithCommas(parts: seq<string>): string
  {
    if |parts| == 0 then ""
    else if |parts| == 1 then parts[0]
    else parts[0] + ", " + JoinWithCommas(parts[1..])
  }

  /** `String.valueOf` of a value: "null" for null, the text of a scalar, and
      a bracketed, comma-separated list for a collection. */
  function Render(v: ParamValue): (s: string)
    ensures v.Items? ==> 2 <= |s| && s[0] == '['
    decreases v
  {
    match v
    case Null => "null"
    case Text(t) => t
    case Items(xs) =>
      "[" + JoinWithCommas(seq(|xs|, i requires 0 <= i < |xs| => Render(xs[i]))) + "]"
  }

  /** The value whose string form `isQuick` parses: the first element of a
      collection (null when the collection is empty), the value itself otherwise. */
  function QuickOperand(v: ParamValue): ParamValue
  {
    match v
    case Items(xs) => if |xs| > 0 then xs[0] else Null
    case _ => v
  }

  /** `HealthCheck.isQuick` on the values above, for which it does not
      throw. It is true exactly when the
      key is present and the value it consults is a string spelling "true"
      in some letter case; a null, a collection or any other text gives false. */
  function IsQuick(parameters: Params): (quick: bool)
    ensures quick <==>
      && PARAMETER_QUICK in parameters
      && QuickOperand(parameters[PARAMETER_QUICK]).Text?
      && ParseBoolean(QuickOperand(parameters[PARAMETER_QUICK]).text)
  {
    if PARAMETER_QUICK !in parameters then false
    else
      var quick := parameters[PARAMETER_QUICK];
      if quick.Null? then false
      else
        var operand := QuickOperand(quick);
        NonTextNeverTrue(operand);
        ParseBoolean(Render(operand))
  }

  /** Only a scalar can spell "true": null renders as "null" and a collection
      as text that starts with '['. */
  lemma NonTextNeverTrue(v: ParamValue)
    ensures !v.Text? ==> !ParseBoolean(Render(v))
  {
    if !v.Text? {
      var s := Render(v);
      assert AsciiLower(s[0]) != AsciiLower("true"[0]);
    }
  }

  /** What `isPerformCheck` does when asked whether to run. */
  datatype Decision = Run | Skip | Throw

  /** What `isHealthy` does: return a boolean, throw an `Exception`, or throw
      a `java.lang.Error`, which is not an `Exception`. */
  datatype HealthResult = Returns(healthy: bool) | ThrowsException | ThrowsError

  /** The outcomes recorded so far in one evaluation, keyed by the position of
      the probe in the registered list (the stand-in for object identity). */
  type Outcomes = map<nat, bool>

  /** One registered health check. `isPerformCheck` sees only a read-only
      copy of the outcomes; `isHealthy` sees the request parameters. */
  datatype Probe = Probe(isPerformCheck: Outcomes -> Decision, isHealthy: Params -> HealthResult)

  /** The interface's default `isPerformCheck`: run whatever was recorded. */
  function DefaultIsPerformCheck(priorStatuses: Outcomes): Decision
  {
    Run
  }

  /** Probes that keep the default `isPerformCheck`, one per given check. */
  function WithDefaultPolicy(checks: seq<Params -> HealthResult>): (probes: seq<Probe>)
    ensures |probes| == |checks|
    ensures forall i :: 0 <= i < |checks| ==> probes[i].isHealthy == checks[i]
    ensures forall i, m :: 0 <= i < |checks| ==> probes[i].isPerformCheck(m) == Run
  {
    seq(|checks|, i requires 0 <= i < |checks| => Probe(DefaultIsPerformCheck, checks[i]))
  }

  /** Worked examples of the `quick` flag. */
  lemma QuickExamples()
    ensures IsQuick(map[PARAMETER_QUICK := Text("true")])
    ensures IsQuick(map[PARAMETER_QUICK := Text("TRUE")])
    ensures IsQuick(map[PARAMETER_QUICK := Items([Text("true"), Text("false")])])
    ensures !IsQuick(map[PARAMETER_QUICK := Items([Text("false"), Text("true")])])
    ensures !IsQuick(map[])
    ensures !IsQuick(map["other" := Text("true")])
    ensures !IsQuick(map[PARAMETER_QUICK := Text("banana")])
    ensures !IsQuick(map[PARAMETER_QUICK := Null])
    ensures !IsQuick(map[PARAMETER_QUICK := Items([])])
    ensures !IsQuick(map[PARAMETER_QUICK := Items([Null])])
    ensures !IsQuick(map[PARAMETER_QUICK := Items([Items([Text("true")])])])
  {
  }
}

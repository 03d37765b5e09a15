/**
 * FilterRule, the JUnit method rule that decides before each test whether
 * it runs: first an optionally injected filter may veto the test, then the
 * `@TestActivation` requirements of the class and of the method are checked,
 * and only then does the wrapped statement run. Violated assumptions, which
 * JUnit reports as skipped tests, are the `Skipped` outcome here.
 */
module FilterRule {

  import opened Wrappers
  import opened Activation

  /**
   * A bound `Filter`: `whySkip` gives the reason to skip the test, or `None`
   * (null) to let it run.
   */
  type Filter = Invocation -> Option<string>

  /** What evaluating the rule's statement ends in: a skip, or whatever the wrapped statement produced. */
  datatype Outcome<O> = Skipped(reason: string) | Delegated(result: O)

  /** The filter gate: a bound filter that gives a reason vetoes the test with that reason. */
  function FilterDecision(filter: Option<Filter>, invocation: Invocation): (d: Decision)
    ensures filter.None? ==> d == Proceed
    ensures d == Proceed <==> filter.None? || filter.value(invocation).None?
    ensures d.Skip? ==> filter.Some? && filter.value(invocation) == Some(d.reason)
  {
    if filter.Some? && filter.value(invocation).Some? then Skip(filter.value(invocation).value)
    else Proceed
  }

  /**
   * The whole decision, in the order `evaluate` takes it: the filter gate,
   * then the activation gate.
   */
  function Decide(filter: Option<Filter>, invocation: Invocation, config: Config): (d: Decision)
    ensures FilterDecision(filter, invocation).Skip? ==> d == FilterDecision(filter, invocation)
    ensures FilterDecision(filter, invocation) == Proceed ==> d == ActivationsDecision(invocation, config)
    ensures d == Proceed <==>
      (filter.None? || filter.value(invocation).None?)
      && AllConfigured(Declared(invocation.classActivation), invocation.className, config)
      && AllConfigured(Declared(invocation.methodActivation), invocation.className, config)
  {
    var filterDecision := FilterDecision(filter, invocation);
    if filterDecision.Skip? then filterDecision else ActivationsDecision(invocation, config)
  }

  /**
   * The statement the rule wraps. Its outcome, success or a thrown failure,
   * is fixed and opaque; the model counts how often it is evaluated.
   */
  class BaseStatement<O> {
    const result: O
    var runs: nat

    constructor (result: O)
      ensures this.result == result && runs == 0
    {
      this.result := result;
      runs := 0;
    }

    method Evaluate() returns (outcome: O)
      modifies this`runs
      ensures outcome == result
      ensures runs == old(runs) + 1
    {
      outcome := result;
      runs := runs + 1;
    }
  }

  /** The anonymous `Statement` that `apply` returns, with its injectable `filter` field. */
  class GatedStatement<O> {
    const base: BaseStatement<O>
    const invocation: Invocation
    var filter: Option<Filter>

    constructor (base: BaseStatement<O>, invocation: Invocation)
      ensures this.base == base && this.invocation == invocation && filter.None?
    {
      this.base := base;
      this.invocation := invocation;
      filter := None;
    }

    /**
     * `evaluate`: optional member injection (`binding` is what the injector
     * has bound for `Filter`; without a binding the field keeps its value),
     * then the two gates, then the wrapped statement, run exactly once and
     * only when neither gate skips.
     */
    method Evaluate(binding: Option<Filter>, config: Config) returns (outcome: Outcome<O>)
      modifies this`filter, base`runs
      ensures filter == if binding.Some? then binding else old(filter)
      ensures outcome.Delegated? <==> Decide(filter, invocation, config) == Proceed
      ensures outcome.Skipped? ==> Decide(filter, invocation, config) == Skip(outcome.reason)
      ensures outcome.Delegated? ==> outcome.result == base.result
      ensures base.runs == old(base.runs) + if outcome.Delegated? then 1 else 0
    {
      if binding.Some? {
        filter := binding;
      }
      if filter.Some? {
        var reason := filter.value(invocation);
        if reason.Some? {
          return Skipped(reason.value);
        }
      }
      var activation := ApplyActivationProperties(invocation, config);
      if activation.Skip? {
        return Skipped(activation.reason);
      }
      var result := base.Evaluate();
      outcome := Delegated(result);
    }
  }

  /** `apply`: wraps `base` for the test method and target that `invocation` describes. */
  method Apply<O>(base: BaseStatement<O>, invocation: Invocation) returns (statement: GatedStatement<O>)
    ensures fresh(statement)
    ensures statement.base == base && statement.invocation == invocation && statement.filter.None?
  {
    statement := new GatedStatement(base, invocation);
  }

  /**
   * With no filter bound and no activation annotation, evaluating the rule's
   * statement returns the wrapped statement's own outcome, after running it once.
   */
  method PassThrough<O>(result: O, invocation: Invocation, config: Config) returns (outcome: Outcome<O>, runs: nat)
    requires invocation.classActivation.None? && invocation.methodActivation.None?
    ensures outcome == Delegated(result)
    ensures runs == 1
  {
    var base := new BaseStatement(result);
    var statement := Apply(base, invocation);
    outcome := statement.Evaluate(None, config);
    runs := base.runs;
  }

  /** A filter's reason wins over a missing activation property. */
  lemma FilterPrecedence(filter: Filter, invocation: Invocation, config: Config)
    requires filter(invocation).Some?
    requires ActivationsDecision(invocation, config).Skip?
    ensures Decide(Some(filter), invocation, config) == Skip(filter(invocation).value)
  {
  }

  /**
   * A test class `PaymentTest` requiring `apiKey` is skipped, naming
   * `PaymentTest.apiKey`, until that property is set, and runs once it is.
   */
  lemma PaymentTestScenario(config: Config)
    ensures "PaymentTest.apiKey" !in config ==>
      Decide(None, Invocation("PaymentTest", Some(["apiKey"]), None), config)
        == Skip(NoPropertyMessage + "PaymentTest.apiKey")
    ensures "PaymentTest.apiKey" in config ==>
      Decide(None, Invocation("PaymentTest", Some(["apiKey"]), None), config) == Proceed
  {
    var properties := ["apiKey"];
    assert QualifiedKey("PaymentTest", properties[0]) == "PaymentTest.apiKey";
    assert properties[1..] == [];
  }
}

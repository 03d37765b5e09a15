# FilterRule gate, modelled in Dafny

This project models `FilterRule`, the JUnit method rule of the Jenkins acceptance-test harness
that decides before every test whether the test runs or is skipped. The rule's statement first
lets the injector fill its optional `Filter` field. A bound filter that gives a reason from
`whySkip` makes the test skipped with exactly that reason. Otherwise the `@TestActivation`
annotation of the test class and then that of the test method are checked. Each declared property
name is qualified as `<TestClassSimpleName>.<name>`. The first one not set as a system property
skips the test with `No propererty provided: <key>`. Only when neither gate skips does the wrapped
statement run, once, and its outcome is returned unchanged. The `Filter` class also has two
helpers that collect annotations of the test method and class into a set.

Files:

- `wrappers.dfy`: `Option`, standing for a Java reference that may be null.
- `activation.dfy`: the activation gate (`assumePropertyConfigured`, `applyActivtionProperties`), with the pure
  functions that specify it and the lemmas about them.
- `filter_helpers.dfy`: both `Filter.getAnnotations` overloads.
- `filter_rule.dfy`: the filter gate, the whole decision (`Decide`), the statement `apply` returns (a class
  whose `filter` field is injected), and the wrapped statement (a class that counts its runs).

The skip message keeps the source's spelling, `"No propererty provided: "`.

## Model

| member | source | states |
|---|---|---|
| `Activation.QualifiedKey` | src/main/java/org/jenkinsci/test/acceptance/junit/FilterRule.java:80-83 | the looked-up key is the class simple name, then one `.`, then the property name |
| `Activation.QualifiedKeyInjective` | src/main/java/org/jenkinsci/test/acceptance/junit/FilterRule.java:80-83 | since a simple class name has no dot, equal qualified keys come from the same class and the same property |
| `Activation.FirstMissing` | src/main/java/org/jenkinsci/test/acceptance/junit/FilterRule.java:82-86 | `None` exactly when every qualified key is present; otherwise the qualified key of some declared property that is absent while every property declared before it is present |
| `Activation.FirstMissingAt` | src/main/java/org/jenkinsci/test/acceptance/junit/FilterRule.java:82-86 | the key reported is the one at the first absent position, so later properties are never examined |
| `Activation.ActivationDecision` | src/main/java/org/jenkinsci/test/acceptance/junit/FilterRule.java:77-90 | an absent annotation imposes nothing; the annotation passes iff every qualified key is present; a skip's reason is `No propererty provided: ` followed by the first absent qualified key |
| `Activation.AssumePropertyConfigured` | src/main/java/org/jenkinsci/test/acceptance/junit/FilterRule.java:77-90 | the in-order loop that stops at the first absent key returns exactly the decision `ActivationDecision` specifies |
| `Activation.ActivationsDecision` | src/main/java/org/jenkinsci/test/acceptance/junit/FilterRule.java:70-75 | the test may proceed iff both the class's and the method's properties are all present; when the class annotation skips, its reason is reported whatever the method declares |
| `Activation.ApplyActivationProperties` | src/main/java/org/jenkinsci/test/acceptance/junit/FilterRule.java:70-75 | the two sequential checks, both against the target's class name, give exactly `ActivationsDecision` |
| `Activation.FirstMissingAppend` | src/main/java/org/jenkinsci/test/acceptance/junit/FilterRule.java:82-86 | checking one property list and then another equals checking their concatenation in order |
| `Activation.ActivationsInDeclarationOrder` | src/main/java/org/jenkinsci/test/acceptance/junit/FilterRule.java:71-74 | the class and method annotations behave as one requirement listing the class's properties and then the method's |
| `Activation.FirstMissingPresenceOnly` | src/main/java/org/jenkinsci/test/acceptance/junit/FilterRule.java:84 | two configurations with the same keys report the same first missing key: values are never read |
| `Activation.ActivationsPresenceOnly` | src/main/java/org/jenkinsci/test/acceptance/junit/FilterRule.java:84 | the activation gate's decision depends only on which system properties are set |
| `FilterHelpers.Elements` | src/main/java/org/jenkinsci/test/acceptance/junit/FilterRule.java:108-109 | adding an annotation array to a set adds exactly its elements, at most as many as the array holds |
| `FilterHelpers.AnnotationsOfType` | src/main/java/org/jenkinsci/test/acceptance/junit/FilterRule.java:98-104 | the set never holds null, holds the method's and the class's annotation whenever present and nothing else, has at most two elements, and one when both are the same annotation |
| `FilterHelpers.AllAnnotations` | src/main/java/org/jenkinsci/test/acceptance/junit/FilterRule.java:106-111 | the set is exactly the union of the method's and the class's annotations |
| `FilterRule.FilterDecision` | src/main/java/org/jenkinsci/test/acceptance/junit/FilterRule.java:57-61 | no bound filter never skips; a bound filter skips iff `whySkip` gives a reason, and the skip carries exactly that reason |
| `FilterRule.Decide` | src/main/java/org/jenkinsci/test/acceptance/junit/FilterRule.java:55-66 | a filter's skip is final; when no filter is bound or the bound filter gives no reason (null), the activation gate's decision, reason included, is the result; the test proceeds iff the filter gives no reason and every class and method key is present |
| `FilterRule.PassThrough` | src/main/java/org/jenkinsci/test/acceptance/junit/FilterRule.java:54-66 | with no filter bound and no activation annotation, evaluating the statement `apply` returns yields the wrapped statement's own outcome, `Delegated(result)`, and runs it exactly once |
| `FilterRule.FilterPrecedence` | src/main/java/org/jenkinsci/test/acceptance/junit/FilterRule.java:57-63 | when the filter and the activation gate would both skip, the filter's reason is reported |
| `FilterRule.PaymentTestScenario` | src/main/java/org/jenkinsci/test/acceptance/junit/FilterRule.java:70-90 | a class `PaymentTest` requiring `apiKey` is skipped naming `PaymentTest.apiKey` until that property is set, and proceeds once it is |
| `FilterRule.BaseStatement.Evaluate` | src/main/java/org/jenkinsci/test/acceptance/junit/FilterRule.java:65 | running the wrapped statement yields its own outcome and counts one run |
| `FilterRule.GatedStatement.constructor` | src/main/java/org/jenkinsci/test/acceptance/junit/FilterRule.java:49-52 | a new statement wraps the given base and test, and its injectable filter starts out null |
| `FilterRule.Apply` | src/main/java/org/jenkinsci/test/acceptance/junit/FilterRule.java:48-68 | `apply` returns a fresh statement over the given base and test, with no filter yet |
| `FilterRule.GatedStatement.Evaluate` | src/main/java/org/jenkinsci/test/acceptance/junit/FilterRule.java:54-66 | optional injection sets the filter only when one is bound; the outcome is a skip with `Decide`'s reason or the base's own outcome, delegated iff `Decide` proceeds; the base runs exactly once when delegated and never otherwise; nothing else changes |

## Left out

- Guice member injection: the injector's binding for `Filter` is a parameter of `Evaluate`; how it is resolved is not modelled.
- JUnit's `Statement`, `FrameworkMethod`, `MethodRule`, `Assume` and `AssumptionViolatedException`: a violated assumption is the `Skipped` outcome, and the wrapped statement's own outcome (success or any thrown failure) is an opaque value passed through.
- Reflection: the class simple name, the `@TestActivation` values and the annotations are given as inputs.
- `System.getProperty`: a read-only map of system properties; Java properties never map a key to null, so presence of the key is presence of a value.
- Concrete `Filter` implementations: `whySkip` is any total function of the test's metadata; it does not see the wrapped statement, and a filter that throws is not modelled.
- `HashSet` hashing: annotations are values compared by equality.

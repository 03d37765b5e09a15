/**
 * The activation gate of FilterRule: a `@TestActivation` annotation on the
 * test class or on the test method lists property names, and each of them,
 * qualified by the test class's simple name, must be set as a system
 * property or the test is skipped.
 */
module Activation {

  import opened Wrappers

  /** The system properties; only whether a key is present matters. */
  type Config = map<string, string>

  /**
   * What the rule learns by reflection about the test about to run: the
   * simple name of the target's class and the `value()` of the
   * `@TestActivation` annotation on the class and on the method (`None`
   * when the annotation is absent).
   */
  datatype Invocation = Invocation(
    className: string,
    classActivation: Option<seq<string>>,
    methodActivation: Option<seq<string>>)

  /** Either the test may go on, or it is skipped with a reason (a violated assumption). */
  datatype Decision = Proceed | Skip(reason: string)

  /** Message prefix of the violated assumption, spelled as the source spells it. */
  const NoPropertyMessage := "No propererty provided: "

  /** The system property looked up for `property` in the test class `className`. */
  function QualifiedKey(className: string, property: string): (key: string)
    ensures |key| == |className| + 1 + |property|
    ensures key[..|className|] == className && key[|className|] == '.'
    ensures key[|className| + 1..] == property
  {
    className + "." + property
  }

  /** Every property in `properties`, qualified by `className`, is set in `config`. */
  predicate AllConfigured(properties: seq<string>, className: string, config: Config)
  {
    forall i :: 0 <= i < |properties| ==> QualifiedKey(className, properties[i]) in config
  }

  /** The property names an optional annotation declares (none when it is absent). */
  function Declared(activation: Option<seq<string>>): (names: seq<string>)
    ensures activation.None? ==> names == []
  {
    if activation.Some? then activation.value else []
  }

  /**
   * The qualified key of the first property, in declaration order, that is
   * not set, or `None` when every property is set.
   */
  function FirstMissing(properties: seq<string>, className: string, config: Config): (missing: Option<string>)
    ensures missing.None? <==> AllConfigured(properties, className, config)
    ensures missing.Some? ==>
      exists i :: 0 <= i < |properties| && missing.value == QualifiedKey(className, properties[i])
        && missing.value !in config
        && AllConfigured(properties[..i], className, config)
  {
    if properties == [] then None
    else if QualifiedKey(className, properties[0]) !in config then Some(QualifiedKey(className, properties[0]))
    else
      var rest := FirstMissing(properties[1..], className, config);
      if rest.None? then rest
      else
        var i :| 0 <= i < |properties[1..]| && rest.value == QualifiedKey(className, properties[1..][i])
          && AllConfigured(properties[1..][..i], className, config);
        assert properties[..i + 1] == [properties[0]] + properties[1..][..i];
        rest
  }

  /** What `assumePropertyConfigured` decides for one (possibly absent) annotation. */
  function ActivationDecision(activation: Option<seq<string>>, className: string, config: Config): (d: Decision)
    ensures activation.None? ==> d == Proceed
    ensures d == Proceed <==> AllConfigured(Declared(activation), className, config)
    ensures d.Skip? ==>
      exists i :: 0 <= i < |Declared(activation)|
        && d.reason == NoPropertyMessage + QualifiedKey(className, Declared(activation)[i])
        && QualifiedKey(className, Declared(activation)[i]) !in config
        && AllConfigured(Declared(activation)[..i], className, config)
  {
    match FirstMissing(Declared(activation), className, config)
    case None => Proceed
    case Some(key) => Skip(NoPropertyMessage + key)
  }

  /**
   * `assumePropertyConfigured`: walks the declared properties in order and
   * stops at the first one that is not set.
   */
  method AssumePropertyConfigured(activation: Option<seq<string>>, className: string, config: Config)
    returns (d: Decision)
    ensures d == ActivationDecision(activation, className, config)
  {
    if activation.None? {
      return Proceed;
    }
    var properties := activation.value;
    for i := 0 to |properties|
      invariant AllConfigured(properties[..i], className, config)
    {
      var propertyName := QualifiedKey(className, properties[i]);
      if propertyName !in config {
        FirstMissingAt(properties, className, config, i);
        return Skip(NoPropertyMessage + propertyName);
      }
    }
    assert properties[..|properties|] == properties;
    return Proceed;
  }

  /** The first unset property is the one reported. */
  lemma FirstMissingAt(properties: seq<string>, className: string, config: Config, i: nat)
    requires i < |properties|
    requires AllConfigured(properties[..i], className, config)
    requires QualifiedKey(className, properties[i]) !in config
    ensures FirstMissing(properties, className, config) == Some(QualifiedKey(className, properties[i]))
  {
  }

  /** What `applyActivtionProperties` decides: the class annotation first, then the method's. */
  function ActivationsDecision(invocation: Invocation, config: Config): (d: Decision)
    ensures d == Proceed <==>
      AllConfigured(Declared(invocation.classActivation), invocation.className, config)
      && AllConfigured(Declared(invocation.methodActivation), invocation.className, config)
    ensures ActivationDecision(invocation.classActivation, invocation.className, config).Skip? ==>
      d == ActivationDecision(invocation.classActivation, invocation.className, config)
  {
    var classDecision := ActivationDecision(invocation.classActivation, invocation.className, config);
    if classDecision.Skip? then classDecision
    else ActivationDecision(invocation.methodActivation, invocation.className, config)
  }

  /** `applyActivtionProperties`: both annotations are checked against the target's class name. */
  method ApplyActivationProperties(invocation: Invocation, config: Config) returns (d: Decision)
    ensures d == ActivationsDecision(invocation, config)
  {
    d := AssumePropertyConfigured(invocation.classActivation, invocation.className, config);
    if d.Skip? {
      return;
    }
    d := AssumePropertyConfigured(invocation.methodActivation, invocation.className, config);
  }

  /** Checking one list after another is checking their concatenation in order. */
  lemma {:induction false} FirstMissingAppend(first: seq<string>, second: seq<string>, className: string, config: Config)
    ensures FirstMissing(first + second, className, config) ==
      if FirstMissing(first, className, config).Some? then FirstMissing(first, className, config)
      else FirstMissing(second, className, config)
  {
    if first != [] {
      assert (first + second)[1..] == first[1..] + second;
      FirstMissingAppend(first[1..], second, className, config);
    } else {
      assert first + second == second;
    }
  }

  /**
   * The two annotations together behave as one requirement listing the class
   * annotation's properties followed by the method annotation's.
   */
  lemma ActivationsInDeclarationOrder(invocation: Invocation, config: Config)
    ensures ActivationsDecision(invocation, config) ==
      ActivationDecision(Some(Declared(invocation.classActivation) + Declared(invocation.methodActivation)),
        invocation.className, config)
  {
    FirstMissingAppend(Declared(invocation.classActivation), Declared(invocation.methodActivation),
      invocation.className, config);
  }

  /** Only the presence of a key matters, never its value. */
  lemma {:induction false} FirstMissingPresenceOnly(properties: seq<string>, className: string, config: Config, other: Config)
    requires config.Keys == other.Keys
    ensures FirstMissing(properties, className, config) == FirstMissing(properties, className, other)
  {
    if properties != [] {
      FirstMissingPresenceOnly(properties[1..], className, config, other);
    }
  }

  /** The decision of the activation gate depends only on which keys are present. */
  lemma ActivationsPresenceOnly(invocation: Invocation, config: Config, other: Config)
    requires config.Keys == other.Keys
    ensures ActivationsDecision(invocation, config) == ActivationsDecision(invocation, other)
  {
    FirstMissingPresenceOnly(Declared(invocation.classActivation), invocation.className, config, other);
    FirstMissingPresenceOnly(Declared(invocation.methodActivation), invocation.className, config, other);
  }

  /**
   * A class simple name never holds a dot, so a qualified key names exactly
   * one class and one property.
   */
  lemma QualifiedKeyInjective(class1: string, property1: string, class2: string, property2: string)
    requires '.' !in class1 && '.' !in class2
    requires QualifiedKey(class1, property1) == QualifiedKey(class2, property2)
    ensures class1 == class2 && property1 == property2
  {
  }
}

/**
 * The two static `getAnnotations` helpers of `FilterRule.Filter`, which
 * filter implementations use to look at the annotations of the test method
 * and of the test class. Reflection is left out: the helpers receive what
 * `getAnnotation` and `getAnnotations` returned, and annotations are plain
 * values compared by equality.
 */
module FilterHelpers {

  import opened Wrappers

  /** The distinct elements of an annotation array, as `addAll(Arrays.asList(...))` adds them. */
  function Elements<A(!new)>(annotations: seq<A>): (elements: set<A>)
    ensures forall a :: a in elements <==> a in annotations
    ensures |elements| <= |annotations|
  {
    if annotations == [] then {}
    else {annotations[0]} + Elements(annotations[1..])
  }

  /**
   * `getAnnotations(method, target, type)`: the method's and the class's
   * annotation of one type (`None` where absent), gathered in a hash set from
   * which null is then removed.
   */
  method AnnotationsOfType<A(==)>(methodAnnotation: Option<A>, classAnnotation: Option<A>)
    returns (annotations: set<Option<A>>)
    ensures None !in annotations
    ensures forall a :: a in annotations <==> a.Some? && (a == methodAnnotation || a == classAnnotation)
    ensures methodAnnotation.Some? ==> methodAnnotation in annotations
    ensures classAnnotation.Some? ==> classAnnotation in annotations
    ensures |annotations| <= 2
    ensures methodAnnotation == classAnnotation ==> |annotations| <= 1
  {
    annotations := {};
    annotations := annotations + {methodAnnotation};
    annotations := annotations + {classAnnotation};
    annotations := annotations - {None};
  }

  /**
   * `getAnnotations(method, target)`: every annotation of the method and of
   * the class, merged into one hash set.
   */
  method AllAnnotations<A(!new)>(methodAnnotations: seq<A>, classAnnotations: seq<A>) returns (annotations: set<A>)
    ensures forall a :: a in annotations <==> a in methodAnnotations || a in classAnnotations
    ensures |annotations| <= |methodAnnotations| + |classAnnotations|
  {
    annotations := {};
    annotations := annotations + Elements(methodAnnotations);
    annotations := annotations + Elements(classAnnotations);
  }
}

/**
 * Values shared by the bean-metadata layer: Java class names, annotation
 * instances and the usual optional and failure-carrying wrappers.
 */
module Metadata {

  /** A Java class (or annotation type) identified by its fully qualified name. */
  type ClassName = string

  /** A Java reference that may be null. */
  datatype Option<+T> = None | Some(value: T)

  /** The value of a computation that may throw instead. */
  datatype Result<+T, +E> = Success(value: T) | Failure(error: E)

  /** The completion of a void Java method that may throw instead. */
  datatype Outcome<+E> = Pass | Fail(error: E)

  /**
   * An annotation instance. Java compares annotations by their type and
   * their member values; the only member the core reads is `value()`
   * (of `@Named`), so that is the one member kept. Marker annotations
   * carry the empty string.
   */
  datatype Annotation = Annotation(annotationType: ClassName, value: string)
}

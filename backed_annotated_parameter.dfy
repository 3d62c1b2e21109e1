/**
 * The metadata view of one parameter of a callable (a method or a
 * constructor): an immutable object whose identity is (declaring callable,
 * position), which answers annotation queries, and which is serialized
 * through a proxy token that resolves back to the canonical instance.
 */
module Backed {
  import opened Metadata

  /** Java's `int`. */
  newtype int32 = x: int | -0x8000_0000 <= x < 0x8000_0000

  /** 2^32: Java `int` arithmetic is arithmetic modulo this. */
  const TWO_TO_32: int := 0x1_0000_0000

  /** The Java `int` that an exact integer result wraps around to. */
  function Wrap(x: int): (r: int32)
    ensures (r as int - x) % TWO_TO_32 == 0
  {
    ((x + 0x8000_0000) % TWO_TO_32 - 0x8000_0000) as int32
  }

  /** Wrapping depends only on the residue modulo 2^32. */
  lemma WrapCongruent(a: int, b: int, k: int)
    requires a == b + k * TWO_TO_32
    ensures Wrap(a) == Wrap(b)
  {
  }

  /**
   * The structural identity of a declaring callable (its declaring type and
   * its signature). The callables serialize themselves and compare by value.
   */
  datatype Callable = Callable(declaringType: ClassName, signature: string)

  /** Why restoring a parameter fails. */
  datatype SerializationError =
    | ProxyRequired       // direct deserialization of the view itself
    | NullCallable        // the token has no callable to ask for its parameters
    | PositionOutOfRange  // the callable's parameter list has no such index

  /**
   * The serialized form of a parameter view: only its structural identity.
   * `parameters` is the callable's `getParameters()`: the canonical,
   * cached views of its parameters, in declaration order.
   */
  datatype SerializationProxy = SerializationProxy(callable: Option<Callable>, position: int32)
  {
    /** Map the token back to the callable's own parameter at the position. */
    function ReadResolve(parameters: Callable -> seq<BackedAnnotatedParameter>)
      : (r: Result<BackedAnnotatedParameter, SerializationError>)
      ensures r.Success? <==> callable.Some? && 0 <= position as int < |parameters(callable.value)|
      ensures r.Success? ==> r.value == parameters(callable.value)[position]
      ensures r.Failure? ==> r.error == (if callable.None? then NullCallable else PositionOutOfRange)
    {
      match callable
      case None => Failure(NullCallable)
      case Some(c) =>
        var ps := parameters(c);
        if 0 <= position as int < |ps| then Success(ps[position]) else Failure(PositionOutOfRange)
    }
  }

  /** The distinct elements of `s`, in order of first occurrence (Guava's `ImmutableSet.copyOf`). */
  function Distinct(s: seq<Annotation>): (r: seq<Annotation>)
    ensures forall a :: a in r <==> a in s
    ensures forall i, j :: 0 <= i < j < |r| ==> r[i] != r[j]
  {
    if s == [] then []
    else
      var d := Distinct(s[..|s| - 1]);
      if s[|s| - 1] in d then d else d + [s[|s| - 1]]
  }

  /** The first annotation of `s` whose annotation type is `t`. */
  function FindAnnotation(s: seq<Annotation>, t: ClassName): (r: Option<Annotation>)
  {
    if s == [] then None
    else if s[0].annotationType == t then Some(s[0])
    else FindAnnotation(s[1..], t)
  }

  /** `s[i]` is the first element of `s` of annotation type `t`. */
  ghost predicate FirstOfTypeAt(s: seq<Annotation>, t: ClassName, i: int)
  {
    0 <= i < |s| && s[i].annotationType == t &&
    forall j :: 0 <= j < i ==> s[j].annotationType != t
  }

  /** FindAnnotation finds the first annotation of the type, and finds none only if none has it. */
  lemma {:induction false} FindAnnotationIsFirst(s: seq<Annotation>, t: ClassName)
    ensures FindAnnotation(s, t).None? <==> forall a :: a in s ==> a.annotationType != t
    ensures FindAnnotation(s, t).Some? ==>
      exists i :: FirstOfTypeAt(s, t, i) && FindAnnotation(s, t).value == s[i]
  {
    if s != [] && s[0].annotationType != t {
      FindAnnotationIsFirst(s[1..], t);
      assert forall a :: a in s ==> a == s[0] || a in s[1..];
      if FindAnnotation(s, t).Some? {
        var i :| FirstOfTypeAt(s[1..], t, i) && FindAnnotation(s[1..], t).value == s[1..][i];
        assert FirstOfTypeAt(s, t, i + 1);
      }
    } else if s != [] {
      assert FirstOfTypeAt(s, t, 0);
    }
  }

  /** Searching a concatenation searches the left part first. */
  lemma {:induction false} FindAnnotationAppend(s: seq<Annotation>, u: seq<Annotation>, t: ClassName)
    ensures FindAnnotation(s + u, t) ==
      if FindAnnotation(s, t).Some? then FindAnnotation(s, t) else FindAnnotation(u, t)
  {
    if s != [] {
      assert (s + u)[1..] == s[1..] + u;
      FindAnnotationAppend(s[1..], u, t);
    } else {
      assert s + u == u;
    }
  }

  /**
   * Removing duplicates does not change which annotation is found first:
   * the set's iteration order finds the same annotation as the array.
   */
  lemma {:induction false} FindAnnotationDistinct(s: seq<Annotation>, t: ClassName)
    ensures FindAnnotation(Distinct(s), t) == FindAnnotation(s, t)
  {
    if s != [] {
      var init, x := s[..|s| - 1], s[|s| - 1];
      assert s == init + [x];
      var d := Distinct(init);
      FindAnnotationDistinct(init, t);
      FindAnnotationAppend(init, [x], t);
      if x in d {
        if FindAnnotation(init, t).None? {
          FindAnnotationIsFirst(init, t);
          FindAnnotationIsFirst(d, t);
          assert x.annotationType != t;
          assert FindAnnotation([x], t) == None;
        }
      } else {
        FindAnnotationAppend(d, [x], t);
      }
    }
  }

  /** A parameter of a callable, as a metadata view. */
  class BackedAnnotatedParameter {
    /** The parameter's declared type. */
    const baseType: ClassName
    const position: int32
    const declaringCallable: Option<Callable>
    /** The annotation set, listed in its iteration order. */
    const annotations: seq<Annotation>

    constructor (baseType: ClassName, annotations: seq<Annotation>, position: int32,
                 declaringCallable: Option<Callable>)
      ensures this.baseType == baseType
      ensures this.position == position && this.declaringCallable == declaringCallable
      ensures this.annotations == Distinct(annotations)
      ensures forall a :: a in this.annotations <==> a in annotations
    {
      this.baseType := baseType;
      this.position := position;
      this.declaringCallable := declaringCallable;
      this.annotations := Distinct(annotations);
    }

    /** The static factory `of`: a fresh view built by the constructor. */
    static method Of(baseType: ClassName, annotations: seq<Annotation>, position: int32,
                     declaringCallable: Option<Callable>)
      returns (p: BackedAnnotatedParameter)
      ensures fresh(p)
      ensures p.baseType == baseType
      ensures p.position == position && p.declaringCallable == declaringCallable
      ensures p.annotations == Distinct(annotations)
      ensures forall a :: a in p.annotations <==> a in annotations
    {
      p := new BackedAnnotatedParameter(baseType, annotations, position, declaringCallable);
    }

    /** The first annotation, in the set's iteration order, of annotation type `t`; None for null. */
    method GetAnnotation(t: ClassName) returns (r: Option<Annotation>)
      ensures r == FindAnnotation(annotations, t)
      ensures r.None? <==> forall a :: a in annotations ==> a.annotationType != t
      ensures r.Some? ==> exists i :: FirstOfTypeAt(annotations, t, i) && r.value == annotations[i]
    {
      FindAnnotationIsFirst(annotations, t);
      var i := 0;
      while i < |annotations|
        invariant 0 <= i <= |annotations|
        invariant FindAnnotation(annotations[i..], t) == FindAnnotation(annotations, t)
      {
        assert annotations[i..][1..] == annotations[i + 1..];
        if annotations[i].annotationType == t {
          return Some(annotations[i]);
        }
        i := i + 1;
      }
      return None;
    }

    /** Whether some annotation of the set has annotation type `t`. */
    function IsAnnotationPresent(t: ClassName): (r: bool)
      ensures r <==> exists a :: a in annotations && a.annotationType == t
    {
      FindAnnotationIsFirst(annotations, t);
      FindAnnotation(annotations, t).Some?
    }

    /** A parameter has no underlying reflective element: always null. */
    function AnnotatedElement(): (r: Option<object>)
      ensures r == None
    {
      None
    }

    /**
     * Java `equals`: `obj` is a parameter view of this class with an equal
     * declaring callable (both null counts as equal) and the same position.
     */
    function Equals(obj: object?): (r: bool)
      ensures r <==> obj is BackedAnnotatedParameter &&
                     (obj as BackedAnnotatedParameter).declaringCallable == declaringCallable &&
                     (obj as BackedAnnotatedParameter).position == position
    {
      if this == obj then true
      else if obj == null then false
      else if !(obj is BackedAnnotatedParameter) then false
      else
        var other := obj as BackedAnnotatedParameter;
        if declaringCallable.None? && other.declaringCallable.Some? then false
        else if declaringCallable.Some? && declaringCallable != other.declaringCallable then false
        else if position != other.position then false
        else true
    }

    /** `hashCode()` of the declaring callable, 0 for null. */
    function CallableHash(callableHash: Callable -> int32): (r: int32)
    {
      if declaringCallable.None? then 0 else callableHash(declaringCallable.value)
    }

    /** The hash promised for the view: 31 * (31 + callable hash) + position, as a Java `int`. */
    function Hash(callableHash: Callable -> int32): (r: int32)
    {
      Wrap(31 * (31 + CallableHash(callableHash) as int) + position as int)
    }

    /** Java `hashCode`: accumulates the fields into `result` with wrapping `int` arithmetic. */
    method HashCode(callableHash: Callable -> int32) returns (result: int32)
      ensures result == Hash(callableHash)
    {
      var prime := 31;
      result := 1;
      result := Wrap(prime * result as int + CallableHash(callableHash) as int);
      ghost var first := result;
      result := Wrap(prime * result as int + position as int);
      var k := (first as int - (31 + CallableHash(callableHash) as int)) / TWO_TO_32;
      assert first as int == 31 + CallableHash(callableHash) as int + k * TWO_TO_32;
      WrapCongruent(prime * first as int + position as int,
                    31 * (31 + CallableHash(callableHash) as int) + position as int, 31 * k);
    }

    /** `writeReplace`: the token holds only the structural identity. */
    function WriteReplace(): (token: SerializationProxy)
      ensures token.callable == declaringCallable && token.position == position
    {
      SerializationProxy(declaringCallable, position)
    }

    /** `readObject`: restoring the view without its proxy always fails. */
    function ReadObject(): (r: Outcome<SerializationError>)
      ensures r == Fail(ProxyRequired)
    {
      Fail(ProxyRequired)
    }
  }

  /** Equality is an equivalence relation on parameter views. */
  lemma EqualsIsEquivalence(p: BackedAnnotatedParameter, q: BackedAnnotatedParameter,
                            s: BackedAnnotatedParameter)
    ensures p.Equals(p)
    ensures p.Equals(q) <==> q.Equals(p)
    ensures p.Equals(q) && q.Equals(s) ==> p.Equals(s)
  {
  }

  /** No view equals null. */
  lemma NotEqualToNull(p: BackedAnnotatedParameter)
    ensures !p.Equals(null)
  {
  }

  /** Annotations and declared type never take part in equality. */
  lemma EqualsIgnoresAnnotations(p: BackedAnnotatedParameter, q: BackedAnnotatedParameter)
    requires p.declaringCallable == q.declaringCallable && p.position == q.position
    ensures p.Equals(q)
  {
  }

  /** Two parameters of one callable at different positions are unequal. */
  lemma DifferentPositionsUnequal(p: BackedAnnotatedParameter, q: BackedAnnotatedParameter)
    requires p.declaringCallable == q.declaringCallable && p.position != q.position
    ensures !p.Equals(q)
  {
  }

  /** Equal views hash equally (whatever the callables' own hash function). */
  lemma EqualsImpliesSameHash(p: BackedAnnotatedParameter, q: BackedAnnotatedParameter,
                              callableHash: Callable -> int32)
    requires p.Equals(q)
    ensures p.Hash(callableHash) == q.Hash(callableHash)
  {
  }

  /** Two views have the same serialized token exactly when they are equal. */
  lemma TokenIsIdentity(p: BackedAnnotatedParameter, q: BackedAnnotatedParameter)
    ensures p.WriteReplace() == q.WriteReplace() <==> p.Equals(q)
  {
  }

  /** Each callable's parameter list holds, at index i, a view of that callable at position i. */
  ghost predicate Canonical(parameters: Callable -> seq<BackedAnnotatedParameter>)
  {
    forall c, i :: 0 <= i < |parameters(c)| ==>
      parameters(c)[i].declaringCallable == Some(c) && parameters(c)[i].position as int == i
  }

  /** A view stored at its own position in its callable's list restores to the very same object. */
  lemma RoundTripIdentity(p: BackedAnnotatedParameter,
                          parameters: Callable -> seq<BackedAnnotatedParameter>)
    requires p.declaringCallable.Some?
    requires 0 <= p.position as int < |parameters(p.declaringCallable.value)|
    requires parameters(p.declaringCallable.value)[p.position] == p
    ensures p.WriteReplace().ReadResolve(parameters) == Success(p)
  {
  }

  /**
   * With canonical parameter lists, restoring a token always yields a view
   * equal to the one serialized, and equal views restore to one object.
   */
  lemma RoundTripCanonical(p: BackedAnnotatedParameter, q: BackedAnnotatedParameter,
                            parameters: Callable -> seq<BackedAnnotatedParameter>)
    requires Canonical(parameters)
    ensures p.WriteReplace().ReadResolve(parameters).Success? ==>
      p.WriteReplace().ReadResolve(parameters).value.Equals(p)
    ensures p.Equals(q) ==>
      p.WriteReplace().ReadResolve(parameters) == q.WriteReplace().ReadResolve(parameters)
  {
  }
}

/**
 * Bean metadata resolution: the ordered initialisation that turns a bean
 * class's declared annotations, its merged stereotypes and the container's
 * configuration into its bindings, name, deployment type, scope and flags,
 * with a definition error for each rule that is broken.
 */
module WebBeans {
  import opened Metadata

  const NAMED: ClassName := "javax.enterprise.inject.Named"
  const SPECIALIZES: ClassName := "javax.enterprise.inject.deployment.Specializes"
  const STANDARD: ClassName := "javax.enterprise.inject.deployment.Standard"
  const DEPENDENT: ClassName := "javax.enterprise.context.Dependent"
  const DECORATES: ClassName := "javax.decorator.Decorates"
  const CURRENT: ClassName := "javax.enterprise.inject.Current"
  const ANY: ClassName := "javax.enterprise.inject.Any"

  /** The `@Current` and `@Any` annotation literals. */
  const CURRENT_BINDING: Annotation := Annotation(CURRENT, "")
  const ANY_BINDING: Annotation := Annotation(ANY, "")

  /** The only classes allowed the deployment type `@Standard`. */
  const STANDARD_WEB_BEAN_CLASSES: set<ClassName> :=
    {"javax.event.Event", "org.jboss.webbeans.BeanManagerImpl",
     "org.jboss.webbeans.conversation.ConversationImpl"}

  /** The `DefinitionException`s the rules raise. */
  datatype DefinitionError =
    | NameOnSpecializingAndSpecialized
    | MissingDeploymentType
    | StandardNotAllowed
    | AmbiguousScope
    | RequiredTypeNotImplemented(requiredType: ClassName)
    | DecoratesOutsideDecorator

  /** What the bean's stereotypes contribute, merged. */
  datatype MergedStereotypes = MergedStereotypes(
    possibleScopeTypes: set<Annotation>,
    possibleDeploymentTypes: map<ClassName, Annotation>,
    beanNameDefaulted: bool,
    requiredTypes: set<ClassName>)

  /**
   * The annotated class a bean is built from: its raw type, its annotations
   * by annotation type, those of them that are binding types, and whether
   * a client proxy can be made for it.
   */
  datatype AnnotatedItem = AnnotatedItem(
    rawType: ClassName,
    annotations: map<ClassName, Annotation>,
    bindingTypes: set<Annotation>,
    proxyable: bool)

  /** What kind of member an injection point is. */
  datatype InjectionPointKind = Field(isTransient: bool) | Parameter | OtherMember

  /** An injection point: required type and bindings, the types of its annotations, its kind. */
  datatype InjectionPoint = InjectionPoint(
    rawType: ClassName,
    bindings: set<Annotation>,
    annotationTypes: set<ClassName>,
    kind: InjectionPointKind)

  /** The scope type and serializability of the bean an injection point resolves to. */
  datatype ResolvedBean = ResolvedBean(scopeType: Option<ClassName>, serializable: bool)

  /**
   * Reflective facts about classes that the rules consume: the primitive
   * classes, the serializable classes, and the pairs (a, b) such that class
   * a is assignable from class b.
   */
  datatype Reflection = Reflection(
    primitives: set<ClassName>,
    serializables: set<ClassName>,
    assignable: set<(ClassName, ClassName)>)
  {
    predicate isPrimitive(c: ClassName) { c in primitives }
    predicate isSerializable(c: ClassName) { c in serializables }
    predicate isAssignableFrom(a: ClassName, b: ClassName) { (a, b) in assignable }
  }

  /** The value of the item's `@Named`, if it carries one. */
  function NamedValue(item: AnnotatedItem): (r: Option<string>)
    ensures r.Some? <==> NAMED in item.annotations
  {
    if NAMED in item.annotations then Some(item.annotations[NAMED].value) else None
  }

  /** The binding set once the default bindings are installed. */
  function DefaultBindings(bindings: set<Annotation>): (r: set<Annotation>)
  {
    if |bindings| == 0 then {CURRENT_BINDING, ANY_BINDING}
    else if ANY_BINDING !in bindings then bindings + {ANY_BINDING}
    else bindings
  }

  /**
   * The defaults: `@Any` is always present and nothing declared is lost; an
   * empty set becomes exactly `{@Current, @Any}`, any other set gains `@Any`.
   */
  lemma DefaultBindingsInstalled(bindings: set<Annotation>)
    ensures ANY_BINDING in DefaultBindings(bindings) && bindings <= DefaultBindings(bindings)
    ensures bindings == {} ==> DefaultBindings(bindings) == {CURRENT_BINDING, ANY_BINDING}
    ensures bindings != {} ==> DefaultBindings(bindings) == bindings + {ANY_BINDING}
    ensures CURRENT_BINDING in DefaultBindings(bindings) <==> bindings == {} || CURRENT_BINDING in bindings
  {
  }

  /** Installing the default bindings twice is installing them once. */
  lemma DefaultBindingsIdempotent(bindings: set<Annotation>)
    ensures DefaultBindings(DefaultBindings(bindings)) == DefaultBindings(bindings)
    ensures DefaultBindings(bindings) != {}
  {
  }

  /**
   * The bean's name after name resolution, from the `@Named` value (if
   * any), whether a stereotype asks for a defaulted name, the bean's
   * default name and its name so far.
   */
  function ResolvedName(named: Option<string>, stereotypeDefaulted: bool, defaultName: string,
                        current: Option<string>): (r: Option<string>)
  {
    var beanNameDefaulted := named.Some? && named.value == "";
    if named.Some? && !beanNameDefaulted then named
    else if beanNameDefaulted || stereotypeDefaulted then Some(defaultName)
    else current
  }

  /**
   * Precedence of the name sources: a non-empty `@Named` value wins; an
   * empty `@Named` or a stereotype's request gives the default name;
   * otherwise the name so far is kept.
   */
  lemma ResolvedNamePrecedence(named: Option<string>, stereotypeDefaulted: bool, defaultName: string,
                               current: Option<string>)
    ensures named.Some? && named.value != "" ==>
      ResolvedName(named, stereotypeDefaulted, defaultName, current) == named
    ensures named == Some("") || (named.None? && stereotypeDefaulted) ==>
      ResolvedName(named, stereotypeDefaulted, defaultName, current) == Some(defaultName)
    ensures named.None? && !stereotypeDefaulted ==>
      ResolvedName(named, stereotypeDefaulted, defaultName, current) == current
  {
  }

  /**
   * The deployment type chosen from the enabled list (lowest priority
   * first) for the given candidates: the last enabled type that is a
   * candidate, scanning down to index 1. Index 0 is never examined.
   */
  function SelectDeploymentType(enabled: seq<ClassName>, possible: map<ClassName, Annotation>)
    : (r: Option<ClassName>)
  {
    if |enabled| <= 1 then None
    else if enabled[|enabled| - 1] in possible then Some(enabled[|enabled| - 1])
    else SelectDeploymentType(enabled[..|enabled| - 1], possible)
  }

  /** `enabled[i]` is a candidate, i is at least 1, and no higher index holds a candidate. */
  ghost predicate HighestPresentAt(enabled: seq<ClassName>, possible: map<ClassName, Annotation>, i: int)
  {
    1 <= i < |enabled| && enabled[i] in possible &&
    forall j :: i < j < |enabled| ==> enabled[j] !in possible
  }

  /** The selection is the highest-priority candidate among indices 1 and up, or none. */
  lemma {:induction false} SelectDeploymentTypeIsHighestPresent(enabled: seq<ClassName>,
                                                                possible: map<ClassName, Annotation>)
    ensures SelectDeploymentType(enabled, possible).None? <==>
      forall j :: 1 <= j < |enabled| ==> enabled[j] !in possible
    ensures SelectDeploymentType(enabled, possible).Some? ==>
      exists i :: HighestPresentAt(enabled, possible, i) &&
                  SelectDeploymentType(enabled, possible).value == enabled[i]
  {
    var n := |enabled|;
    if n > 1 {
      if enabled[n - 1] in possible {
        assert HighestPresentAt(enabled, possible, n - 1);
      } else {
        var init := enabled[..n - 1];
        SelectDeploymentTypeIsHighestPresent(init, possible);
        assert forall j :: 0 <= j < n - 1 ==> init[j] == enabled[j];
        if SelectDeploymentType(init, possible).Some? {
          var i :| HighestPresentAt(init, possible, i) &&
                   SelectDeploymentType(init, possible).value == init[i];
          assert HighestPresentAt(enabled, possible, i);
        }
      }
    }
  }

  /** Whatever stands at index 0 of the enabled list, the selection is the same. */
  lemma {:induction false} SelectDeploymentTypeIgnoresIndexZero(enabled: seq<ClassName>, u: ClassName,
                                                                possible: map<ClassName, Annotation>)
    requires |enabled| > 0
    ensures SelectDeploymentType(enabled, possible) == SelectDeploymentType([u] + enabled[1..], possible)
  {
    var n := |enabled|;
    var other := [u] + enabled[1..];
    if n > 1 && enabled[n - 1] !in possible {
      assert other[..n - 1] == [u] + enabled[..n - 1][1..];
      SelectDeploymentTypeIgnoresIndexZero(enabled[..n - 1], u, possible);
    }
  }

  /** Given enabled types [a, b, c] and candidates a and c, the selection is c, not a. */
  lemma HighestPriorityNotFirstDeclared(a: ClassName, b: ClassName, c: ClassName,
                                        x: Annotation, y: Annotation)
    ensures SelectDeploymentType([a, b, c], map[a := x, c := y]) == Some(c)
  {
  }

  /** Whether a deployment type is resolved and, if it is `@Standard`, the raw type is allow-listed. */
  predicate DeploymentTypeAllowed(deploymentType: Option<ClassName>, rawType: ClassName)
  {
    deploymentType.Some? && (deploymentType.value == STANDARD ==> rawType in STANDARD_WEB_BEAN_CLASSES)
  }

  /** Whether every type a stereotype requires is assignable from the bean's class. */
  predicate ImplementsRequiredTypes(refl: Reflection, requiredTypes: set<ClassName>, beanType: ClassName)
  {
    forall t :: t in requiredTypes ==> refl.isAssignableFrom(t, beanType)
  }

  /** The injection points that carry `@Decorates`. */
  function DecoratesPoints(points: set<InjectionPoint>): set<InjectionPoint>
  {
    set ip | ip in points && DECORATES in ip.annotationTypes
  }

  /**
   * An injection point that keeps a bean of a passivating scope from
   * being serializable: it resolves to a Dependent, non-serializable bean
   * and is a non-transient field or a parameter.
   */
  predicate BreaksPassivation(ip: InjectionPoint, resolved: ResolvedBean)
  {
    resolved.scopeType == Some(DEPENDENT) && !resolved.serializable &&
    (match ip.kind
     case Field(isTransient) => !isTransient
     case Parameter => true
     case OtherMember => false)
  }

  /**
   * The container services the rules consult: the enabled deployment types
   * (lowest priority first), whether a scope is passivating, the bean an
   * injection point resolves to (the first of the beans the container finds
   * for it), and the registry of specialized beans.
   */
  class BeanManager {
    var specializedBeans: map<AbstractBean, AbstractBean>
    const enabledDeploymentTypes: seq<ClassName>
    const isPassivatingScope: Option<ClassName> -> bool
    const resolvedBean: InjectionPoint -> ResolvedBean

    constructor (enabledDeploymentTypes: seq<ClassName>, isPassivatingScope: Option<ClassName> -> bool,
                 resolvedBean: InjectionPoint -> ResolvedBean)
      ensures this.enabledDeploymentTypes == enabledDeploymentTypes
      ensures this.isPassivatingScope == isPassivatingScope && this.resolvedBean == resolvedBean
      ensures specializedBeans == map[]
    {
      this.enabledDeploymentTypes := enabledDeploymentTypes;
      this.isPassivatingScope := isPassivatingScope;
      this.resolvedBean := resolvedBean;
      specializedBeans := map[];
    }
  }

  /** The resolved metadata of a bean, as one value. */
  datatype BeanState = BeanState(
    mergedStereotypes: MergedStereotypes,
    bindings: set<Annotation>,
    name: Option<string>,
    primitive: bool,
    deploymentType: Option<ClassName>,
    scopeType: Option<ClassName>,
    serializable: bool,
    proxyable: bool,
    injectionPoints: set<InjectionPoint>,
    decoratesInjectionPoint: set<InjectionPoint>)

  /** A bean under construction: its resolved metadata so far. */
  class AbstractBean {
    const manager: BeanManager
    const item: AnnotatedItem
    /** The bean class. */
    const beanType: ClassName

    var bindings: set<Annotation>
    var name: Option<string>
    var scopeType: Option<ClassName>
    var mergedStereotypes: MergedStereotypes
    var deploymentType: Option<ClassName>
    var injectionPoints: set<InjectionPoint>
    var primitive: bool
    var serializable: bool
    var proxyable: bool
    var decoratesInjectionPoint: set<InjectionPoint>

    constructor (manager: BeanManager, item: AnnotatedItem, beanType: ClassName)
      ensures this.manager == manager && this.item == item && this.beanType == beanType
      ensures bindings == {} && name.None? && scopeType.None? && deploymentType.None?
      ensures injectionPoints == {} && decoratesInjectionPoint == {}
      ensures !primitive && !serializable && !proxyable
      ensures mergedStereotypes == MergedStereotypes({}, map[], false, {})
    {
      this.manager := manager;
      this.item := item;
      this.beanType := beanType;
      bindings := {};
      name := None;
      scopeType := None;
      mergedStereotypes := MergedStereotypes({}, map[], false, {});
      deploymentType := None;
      injectionPoints := {};
      primitive := false;
      serializable := false;
      proxyable := false;
      decoratesInjectionPoint := {};
    }

    /**
     * Scan the enabled deployment types from the highest priority down to
     * index 1 and return the first that is a candidate.
     */
    static method GetDeploymentType(enabled: seq<ClassName>, possible: map<ClassName, Annotation>)
      returns (r: Option<ClassName>)
      ensures r == SelectDeploymentType(enabled, possible)
      ensures r.None? <==> forall j :: 1 <= j < |enabled| ==> enabled[j] !in possible
      ensures r.Some? ==> exists i :: HighestPresentAt(enabled, possible, i) && r.value == enabled[i]
    {
      SelectDeploymentTypeIsHighestPresent(enabled, possible);
      var i := |enabled| - 1;
      assert enabled[..i + 1] == enabled;
      while i > 0
        invariant -1 <= i < |enabled|
        invariant SelectDeploymentType(enabled[..i + 1], possible) == SelectDeploymentType(enabled, possible)
      {
        assert enabled[..i + 1][..i] == enabled[..i];
        if enabled[i] in possible {
          return Some(enabled[i]);
        }
        i := i - 1;
      }
      return None;
    }

    /** This bean's metadata fields, as one value. */
    ghost function State(): BeanState
      reads this
    {
      BeanState(mergedStereotypes, bindings, name, primitive, deploymentType, scopeType,
                serializable, proxyable, injectionPoints, decoratesInjectionPoint)
    }

    /** Whether the bean class carries `@Specializes`. */
    function IsSpecializing(): (r: bool)
      ensures r <==> SPECIALIZES in item.annotations
    {
      SPECIALIZES in item.annotations
    }

    /** The bindings are the item's binding types, with the defaults installed. */
    method InitBindings()
      modifies this`bindings
      ensures bindings == DefaultBindings(item.bindingTypes)
    {
      bindings := item.bindingTypes;
      InitDefaultBindings();
    }

    /** Install `@Current` and `@Any` on an empty binding set, otherwise add `@Any`. */
    method InitDefaultBindings()
      modifies this`bindings
      ensures bindings == DefaultBindings(old(bindings))
    {
      if |bindings| == 0 {
        bindings := bindings + {CURRENT_BINDING};
        bindings := bindings + {ANY_BINDING};
      } else {
        if ANY_BINDING !in bindings {
          bindings := bindings + {ANY_BINDING};
        }
      }
    }

    /** When stereotypes offer deployment types, take the highest-priority enabled one. */
    method InitDeploymentTypeFromStereotype()
      modifies this`deploymentType
      ensures |mergedStereotypes.possibleDeploymentTypes| > 0 ==>
        deploymentType == SelectDeploymentType(manager.enabledDeploymentTypes,
                                               mergedStereotypes.possibleDeploymentTypes)
      ensures |mergedStereotypes.possibleDeploymentTypes| == 0 ==> deploymentType == old(deploymentType)
    {
      var possible := mergedStereotypes.possibleDeploymentTypes;
      if |possible| > 0 {
        deploymentType := GetDeploymentType(manager.enabledDeploymentTypes, possible);
        return;
      }
    }

    /** Resolve the name from `@Named`, stereotype defaulting and the default name. */
    method InitName(defaultName: string)
      modifies this`name
      ensures name == ResolvedName(NamedValue(item), mergedStereotypes.beanNameDefaulted,
                                   defaultName, old(name))
    {
      var beanNameDefaulted := false;
      if NAMED in item.annotations {
        var javaName := item.annotations[NAMED].value;
        if javaName == "" {
          beanNameDefaulted := true;
        } else {
          name := Some(javaName);
          return;
        }
      }
      if beanNameDefaulted || mergedStereotypes.beanNameDefaulted {
        name := Some(defaultName);
        return;
      }
    }

    method InitProxyable()
      modifies this`proxyable
      ensures proxyable == item.proxyable
    {
      proxyable := item.proxyable;
    }

    method InitPrimitive(refl: Reflection)
      modifies this`primitive
      ensures primitive == refl.isPrimitive(beanType)
    {
      primitive := refl.isPrimitive(beanType);
    }

    method InitSerializable(refl: Reflection)
      modifies this`serializable
      ensures serializable == refl.isSerializable(beanType)
    {
      serializable := refl.isSerializable(beanType);
    }

    /**
     * Take the scope from the stereotypes: the one possible scope if there
     * is exactly one (returning true), an error if there are several, and
     * false with the scope untouched if there are none.
     */
    method InitScopeTypeFromStereotype() returns (r: Result<bool, DefinitionError>)
      modifies this`scopeType
      ensures var possible := mergedStereotypes.possibleScopeTypes;
        |possible| == 1 ==> r == Success(true) && scopeType.Some? &&
                            forall a :: a in possible ==> scopeType.value == a.annotationType
      ensures |mergedStereotypes.possibleScopeTypes| > 1 ==>
        r == Failure(AmbiguousScope) && scopeType == old(scopeType)
      ensures |mergedStereotypes.possibleScopeTypes| == 0 ==>
        r == Success(false) && scopeType == old(scopeType)
    {
      var possible := mergedStereotypes.possibleScopeTypes;
      if |possible| == 1 {
        var a :| a in possible;
        assert |possible - {a}| == 0;
        assert possible == {a};
        scopeType := Some(a.annotationType);
        return Success(true);
      } else if |possible| > 1 {
        return Failure(AmbiguousScope);
      } else {
        return Success(false);
      }
    }

    /** Reject a missing deployment type, and `@Standard` on a class not allow-listed. */
    function CheckDeploymentType(): (r: Outcome<DefinitionError>)
      reads this
      ensures r.Pass? <==> DeploymentTypeAllowed(deploymentType, item.rawType)
      ensures r == Fail(MissingDeploymentType) <==> deploymentType.None?
      ensures r == Fail(StandardNotAllowed) <==>
        deploymentType == Some(STANDARD) && item.rawType !in STANDARD_WEB_BEAN_CLASSES
    {
      if deploymentType.None? then Fail(MissingDeploymentType)
      else if deploymentType.value == STANDARD && item.rawType !in STANDARD_WEB_BEAN_CLASSES then
        Fail(StandardNotAllowed)
      else Pass
    }

    /** Fail on the first required type of the stereotypes not assignable from the bean class. */
    method CheckRequiredTypesImplemented(refl: Reflection) returns (outcome: Outcome<DefinitionError>)
      ensures outcome.Pass? <==> ImplementsRequiredTypes(refl, mergedStereotypes.requiredTypes, beanType)
      ensures outcome.Fail? ==>
        outcome.error.RequiredTypeNotImplemented? &&
        outcome.error.requiredType in mergedStereotypes.requiredTypes &&
        !refl.isAssignableFrom(outcome.error.requiredType, beanType)
    {
      var requiredTypes := mergedStereotypes.requiredTypes;
      var remaining := requiredTypes;
      while remaining != {}
        invariant remaining <= requiredTypes
        invariant forall t :: t in requiredTypes && t !in remaining ==> refl.isAssignableFrom(t, beanType)
        decreases remaining
      {
        var t :| t in remaining;
        if !refl.isAssignableFrom(t, beanType) {
          return Fail(RequiredTypeNotImplemented(t));
        }
        remaining := remaining - {t};
      }
      return Pass;
    }

    /**
     * After specialization: fail if both this bean and the specialized one
     * are named; otherwise merge in the specialized bean's bindings, then
     * either adopt its name (when it is named) or register the pair in the
     * manager's specialized-beans map.
     */
    method PostSpecialize(specialized: AbstractBean) returns (outcome: Outcome<DefinitionError>)
      modifies this`bindings, this`name, manager`specializedBeans
      ensures outcome.Fail? <==> NAMED in item.annotations && NAMED in specialized.item.annotations
      ensures outcome.Fail? ==>
        outcome.error == NameOnSpecializingAndSpecialized &&
        bindings == old(bindings) && name == old(name) &&
        manager.specializedBeans == old(manager.specializedBeans)
      ensures outcome.Pass? ==> bindings == old(bindings) + old(specialized.bindings)
      ensures outcome.Pass? && IsSpecializing() && NAMED in specialized.item.annotations ==>
        name == old(specialized.name) && manager.specializedBeans == old(manager.specializedBeans)
      ensures outcome.Pass? && !(IsSpecializing() && NAMED in specialized.item.annotations) ==>
        name == old(name) &&
        manager.specializedBeans == old(manager.specializedBeans)[specialized := this]
    {
      if NAMED in item.annotations && NAMED in specialized.item.annotations {
        return Fail(NameOnSpecializingAndSpecialized);
      }
      bindings := bindings + specialized.bindings;
      if IsSpecializing() && NAMED in specialized.item.annotations {
        name := specialized.name;
        return Pass;
      }
      manager.specializedBeans := manager.specializedBeans[specialized := this];
      return Pass;
    }

    /** Collect the injection points that carry `@Decorates`. */
    method InitDecorates()
      modifies this`decoratesInjectionPoint
      ensures decoratesInjectionPoint == DecoratesPoints(injectionPoints)
      ensures forall ip :: ip in decoratesInjectionPoint <==>
        ip in injectionPoints && DECORATES in ip.annotationTypes
    {
      decoratesInjectionPoint := {};
      var remaining := injectionPoints;
      while remaining != {}
        invariant remaining <= injectionPoints
        invariant decoratesInjectionPoint == DecoratesPoints(injectionPoints - remaining)
        decreases remaining
      {
        var ip :| ip in remaining;
        if DECORATES in ip.annotationTypes {
          decoratesInjectionPoint := decoratesInjectionPoint + {ip};
        }
        remaining := remaining - {ip};
      }
    }

    /** `@Decorates` is only legal on a decorator: fail if any injection point carries it. */
    function CheckDecorates(): (r: Outcome<DefinitionError>)
      reads this
      ensures r.Fail? <==> decoratesInjectionPoint != {}
      ensures r.Fail? ==> r.error == DecoratesOutsideDecorator
    {
      if |decoratesInjectionPoint| > 0 then Fail(DecoratesOutsideDecorator) else Pass
    }

    /**
     * False exactly when the scope is passivating and some injection point
     * breaks passivation.
     */
    method CheckInjectionPointsAreSerializable() returns (r: bool)
      ensures !r <==> (manager.isPassivatingScope(scopeType) &&
                       exists ip :: ip in injectionPoints && BreaksPassivation(ip, manager.resolvedBean(ip)))
    {
      var passivating := manager.isPassivatingScope(scopeType);
      var points := injectionPoints;
      var remaining := points;
      while remaining != {}
        invariant remaining <= points
        invariant passivating ==>
          forall ip :: ip in points && ip !in remaining ==> !BreaksPassivation(ip, manager.resolvedBean(ip))
        decreases remaining
      {
        var ip :| ip in remaining;
        var resolved := manager.resolvedBean(ip);
        if passivating && BreaksPassivation(ip, resolved) {
          return false;
        }
        remaining := remaining - {ip};
      }
      return true;
    }

    /** The bean class is serializable and no injection point breaks passivation. */
    method IsSerializable() returns (r: bool)
      ensures r <==> (serializable && !(manager.isPassivatingScope(scopeType) &&
                      exists ip :: ip in injectionPoints && BreaksPassivation(ip, manager.resolvedBean(ip))))
    {
      r := serializable;
      if r {
        r := CheckInjectionPointsAreSerializable();
      }
    }

    function IsNullable(): (r: bool)
      reads this
      ensures r <==> !primitive
    {
      !primitive
    }

    function IsDependent(): (r: bool)
      reads this
      ensures r <==> scopeType == Some(DEPENDENT)
    {
      scopeType == Some(DEPENDENT)
    }

    /** Both this bean and the bean it specializes carry `@Named`. */
    predicate NameConflict(specialized: AbstractBean)
    {
      IsSpecializing() && NAMED in item.annotations && NAMED in specialized.item.annotations
    }

    /**
     * The specialization step of initialisation: for a specializing bean,
     * the pre-specialize and specialize hooks (which do nothing in this
     * class) and then `PostSpecialize`; nothing for any other bean.
     */
    method Specialize(specialized: AbstractBean) returns (outcome: Outcome<DefinitionError>)
      modifies this`bindings, this`name, manager`specializedBeans
      ensures outcome.Fail? <==> NameConflict(specialized)
      ensures outcome.Fail? ==> outcome.error == NameOnSpecializingAndSpecialized
      ensures outcome.Fail? ==> bindings == old(bindings) && name == old(name)
      ensures outcome.Pass? ==>
        bindings == old(bindings) + (if IsSpecializing() then old(specialized.bindings) else {})
      ensures outcome.Pass? ==>
        name == if IsSpecializing() && NAMED in specialized.item.annotations
                then old(specialized.name) else old(name)
      ensures manager.specializedBeans ==
        if IsSpecializing() && NAMED !in specialized.item.annotations
        then old(manager.specializedBeans)[specialized := this]
        else old(manager.specializedBeans)
    {
      outcome := Pass;
      if IsSpecializing() {
        outcome := PostSpecialize(specialized);
      }
    }

    /**
     * The second stage of initialisation: default bindings, the primitive
     * flag and the name, then the deployment-type hook and the check of
     * what it assigned, then the scope hook and (only if it succeeds) the
     * serializable and proxyable flags. A hook is given as what it assigns,
     * or the definition error it raises; a step that fails ends the stage.
     */
    method ResolveMetadata(refl: Reflection, defaultName: string,
                           deploymentTypeHook: Result<Option<ClassName>, DefinitionError>,
                           scopeTypeHook: Result<Option<ClassName>, DefinitionError>)
      returns (outcome: Outcome<DefinitionError>)
      modifies this`bindings, this`primitive, this`name, this`deploymentType, this`scopeType,
               this`serializable, this`proxyable
      ensures outcome.Pass? <==>
        deploymentTypeHook.Success? && DeploymentTypeAllowed(deploymentTypeHook.value, item.rawType) &&
        scopeTypeHook.Success?
      ensures deploymentTypeHook.Failure? ==> outcome == Fail(deploymentTypeHook.error)
      ensures deploymentTypeHook.Success? && !DeploymentTypeAllowed(deploymentTypeHook.value, item.rawType) ==>
        outcome == Fail(if deploymentTypeHook.value.None? then MissingDeploymentType else StandardNotAllowed)
      ensures deploymentTypeHook.Success? && DeploymentTypeAllowed(deploymentTypeHook.value, item.rawType) &&
              scopeTypeHook.Failure? ==>
        outcome == Fail(scopeTypeHook.error)
      ensures bindings == DefaultBindings(old(bindings))
      ensures primitive == refl.isPrimitive(beanType)
      ensures name == ResolvedName(NamedValue(item), mergedStereotypes.beanNameDefaulted, defaultName, old(name))
      ensures deploymentType == if deploymentTypeHook.Success? then deploymentTypeHook.value else old(deploymentType)
      ensures outcome.Pass? ==>
        scopeType == scopeTypeHook.value && serializable == refl.isSerializable(beanType) &&
        proxyable == item.proxyable
      ensures outcome.Fail? ==>
        scopeType == old(scopeType) && serializable == old(serializable) && proxyable == old(proxyable)
    {
      InitDefaultBindings();
      InitPrimitive(refl);
      InitName(defaultName);
      if deploymentTypeHook.Failure? {
        return Fail(deploymentTypeHook.error);
      }
      deploymentType := deploymentTypeHook.value;
      outcome := CheckDeploymentType();
      if outcome.Fail? {
        return;
      }
      if scopeTypeHook.Failure? {
        return Fail(scopeTypeHook.error);
      }
      scopeType := scopeTypeHook.value;
      InitSerializable(refl);
      InitProxyable();
    }

    /**
     * The last stage of initialisation: the required-type check, then the
     * injection-point hook (what it finds, or the error it raises), then
     * the `@Decorates` collection and check.
     */
    method CheckTypesAndInjectionPoints(refl: Reflection, pointsHook: Result<set<InjectionPoint>, DefinitionError>)
      returns (outcome: Outcome<DefinitionError>)
      modifies this`injectionPoints, this`decoratesInjectionPoint
      ensures outcome.Pass? <==>
        ImplementsRequiredTypes(refl, mergedStereotypes.requiredTypes, beanType) &&
        pointsHook.Success? && DecoratesPoints(pointsHook.value) == {}
      ensures !ImplementsRequiredTypes(refl, mergedStereotypes.requiredTypes, beanType) ==>
        outcome.Fail? && outcome.error.RequiredTypeNotImplemented? &&
        outcome.error.requiredType in mergedStereotypes.requiredTypes &&
        !refl.isAssignableFrom(outcome.error.requiredType, beanType)
      ensures ImplementsRequiredTypes(refl, mergedStereotypes.requiredTypes, beanType) && pointsHook.Failure? ==>
        outcome == Fail(pointsHook.error)
      ensures !(ImplementsRequiredTypes(refl, mergedStereotypes.requiredTypes, beanType) && pointsHook.Success?) ==>
        injectionPoints == old(injectionPoints) && decoratesInjectionPoint == old(decoratesInjectionPoint)
      ensures ImplementsRequiredTypes(refl, mergedStereotypes.requiredTypes, beanType) && pointsHook.Success? ==>
        injectionPoints == pointsHook.value && decoratesInjectionPoint == DecoratesPoints(pointsHook.value) &&
        (outcome.Fail? ==> outcome.error == DecoratesOutsideDecorator)
    {
      outcome := CheckRequiredTypesImplemented(refl);
      if outcome.Fail? {
        return;
      }
      if pointsHook.Failure? {
        return Fail(pointsHook.error);
      }
      injectionPoints := pointsHook.value;
      InitDecorates();
      outcome := CheckDecorates();
    }

    /**
     * The fixed initialisation order, in three stages (`Specialize`,
     * `ResolveMetadata`, `CheckTypesAndInjectionPoints`), each of which ends
     * initialisation at its first error. The subclass hooks are parameters:
     * `specialized` is the bean this one specializes (consulted only when
     * it specializes), `defaultName` the default name, and
     * `deploymentTypeHook`, `scopeTypeHook` and `pointsHook` what the
     * deployment-type, scope and injection-point hooks assign, or the
     * definition error each raises. A failure is the error of the first
     * step that fails, in the order the steps run.
     */
    method Initialize(merged: MergedStereotypes, specialized: AbstractBean, refl: Reflection,
                      defaultName: string, deploymentTypeHook: Result<Option<ClassName>, DefinitionError>,
                      scopeTypeHook: Result<Option<ClassName>, DefinitionError>,
                      pointsHook: Result<set<InjectionPoint>, DefinitionError>)
      returns (outcome: Outcome<DefinitionError>)
      modifies this, manager`specializedBeans
      ensures NameConflict(specialized) ==> outcome == Fail(NameOnSpecializingAndSpecialized)
      ensures outcome.Pass? <==>
        !NameConflict(specialized) &&
        deploymentTypeHook.Success? && DeploymentTypeAllowed(deploymentTypeHook.value, item.rawType) &&
        scopeTypeHook.Success? &&
        ImplementsRequiredTypes(refl, merged.requiredTypes, beanType) &&
        pointsHook.Success? && DecoratesPoints(pointsHook.value) == {}
      ensures !NameConflict(specialized) && deploymentTypeHook.Failure? ==>
        outcome == Fail(deploymentTypeHook.error)
      ensures !NameConflict(specialized) && deploymentTypeHook.Success? &&
              !DeploymentTypeAllowed(deploymentTypeHook.value, item.rawType) ==>
        outcome == Fail(if deploymentTypeHook.value.None? then MissingDeploymentType else StandardNotAllowed)
      ensures !NameConflict(specialized) && deploymentTypeHook.Success? &&
              DeploymentTypeAllowed(deploymentTypeHook.value, item.rawType) && scopeTypeHook.Failure? ==>
        outcome == Fail(scopeTypeHook.error)
      ensures !NameConflict(specialized) && deploymentTypeHook.Success? &&
              DeploymentTypeAllowed(deploymentTypeHook.value, item.rawType) && scopeTypeHook.Success? &&
              !ImplementsRequiredTypes(refl, merged.requiredTypes, beanType) ==>
        outcome.Fail? && outcome.error.RequiredTypeNotImplemented? &&
        outcome.error.requiredType in merged.requiredTypes &&
        !refl.isAssignableFrom(outcome.error.requiredType, beanType)
      ensures !NameConflict(specialized) && deploymentTypeHook.Success? &&
              DeploymentTypeAllowed(deploymentTypeHook.value, item.rawType) && scopeTypeHook.Success? &&
              ImplementsRequiredTypes(refl, merged.requiredTypes, beanType) && pointsHook.Failure? ==>
        outcome == Fail(pointsHook.error)
      ensures !NameConflict(specialized) && deploymentTypeHook.Success? &&
              DeploymentTypeAllowed(deploymentTypeHook.value, item.rawType) && scopeTypeHook.Success? &&
              ImplementsRequiredTypes(refl, merged.requiredTypes, beanType) && pointsHook.Success? &&
              DecoratesPoints(pointsHook.value) != {} ==>
        outcome == Fail(DecoratesOutsideDecorator)
      ensures manager.specializedBeans ==
        if IsSpecializing() && NAMED !in specialized.item.annotations
        then old(manager.specializedBeans)[specialized := this]
        else old(manager.specializedBeans)
      ensures outcome.Pass? ==>
        State() == BeanState(
          merged,
          DefaultBindings(old(bindings) + (if IsSpecializing() then old(specialized.bindings) else {})),
          ResolvedName(NamedValue(item), merged.beanNameDefaulted, defaultName,
                       if IsSpecializing() && NAMED in specialized.item.annotations
                       then old(specialized.name) else old(name)),
          refl.isPrimitive(beanType), deploymentTypeHook.value, scopeTypeHook.value,
          refl.isSerializable(beanType), item.proxyable, pointsHook.value, {})
      ensures outcome.Pass? ==>
        (IsNullable() <==> !refl.isPrimitive(beanType)) &&
        (IsDependent() <==> scopeTypeHook.value == Some(DEPENDENT))
      // specialization runs before name resolution: an adopted name survives
      // unless the stereotypes ask for a defaulted name
      ensures outcome.Pass? && IsSpecializing() && NAMED in specialized.item.annotations ==>
        name == if merged.beanNameDefaulted then Some(defaultName) else old(specialized.name)
    {
      mergedStereotypes := merged;
      outcome := Specialize(specialized);
      if outcome.Fail? {
        return;
      }
      outcome := ResolveMetadata(refl, defaultName, deploymentTypeHook, scopeTypeHook);
      if outcome.Fail? {
        return;
      }
      outcome := CheckTypesAndInjectionPoints(refl, pointsHook);
    }
  }
}

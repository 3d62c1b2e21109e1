# Bean metadata of a dependency-injection container, in Dafny

This project models two small pieces of the metadata layer of a CDI
(Web Beans / Weld) container and proves properties of them.

**Bean metadata resolution** (`WebBeans`, `abstract_bean.dfy`). A bean under
construction is a class `AbstractBean` whose fields (`bindings`, `name`,
`scopeType`, `deploymentType`, `mergedStereotypes`, `injectionPoints`, the
`primitive`, `serializable` and `proxyable` flags, `decoratesInjectionPoint`)
are filled in by `init*` methods and validated by `check*` members, in the
fixed order of `Initialize`. Every broken rule is a `DefinitionError` (the
source's `DefinitionException`), returned as an `Outcome` or `Result`. The
container (`BeanManager`) holds the process-wide specialized-beans map that
`PostSpecialize` writes, the ordered list of enabled deployment types, and
two lookups the rules consult: whether a scope is passivating, and the bean
an injection point resolves to. Reflective facts about classes (primitive,
serializable, assignable) are the sets of a `Reflection` record. Each
`init*`/`check*` method is proved against a specification function of the
old state (`DefaultBindings`, `ResolvedName`, `SelectDeploymentType`,
`DecoratesPoints`, ...), and the properties are proved about those
functions. `Initialize` runs the steps in source order, grouped into three
stages: `Specialize`, `ResolveMetadata` and `CheckTypesAndInjectionPoints`.
It states the whole resolved state as one `BeanState` value, in terms of the
inputs and the old state. It also states which error a failed
initialisation reports.

**Parameter metadata view** (`Backed`, `backed_annotated_parameter.dfy`).
`BackedAnnotatedParameter` is an immutable object for one parameter of a
callable. Its identity is (declaring callable, position): `Equals` and
`HashCode` ignore annotations. Its annotations are the distinct elements of
the constructor's array, in first-occurrence order, and `GetAnnotation`
searches them in that order. Serialization is an explicit token,
`SerializationProxy(callable, position)`, made by `WriteReplace`;
`ReadResolve` maps it back to `callable.getParameters()[position]`, given as
a function from callables to their canonical parameter lists. `ReadObject`
always fails.

Shared values (class names, annotations, `Option`, `Result`, `Outcome`) live
in `Metadata` (`metadata.dfy`).

## Model

| member | source | states |
|---|---|---|
| WebBeans.NamedValue | impl/src/main/java/org/jboss/webbeans/bean/AbstractBean.java:267-269 | the `@Named` value is present exactly when the item carries `@Named` |
| WebBeans.DefaultBindingsInstalled | impl/src/main/java/org/jboss/webbeans/bean/AbstractBean.java:218-235 | `@Any` is always installed and no declared binding is lost; an empty set becomes exactly `{@Current, @Any}`, any other set gains only `@Any`; `@Current` is present iff the set was empty or already had it |
| WebBeans.DefaultBindingsIdempotent | impl/src/main/java/org/jboss/webbeans/bean/AbstractBean.java:218-235 | installing the defaults twice equals installing them once, and the result is never empty |
| WebBeans.ResolvedNamePrecedence | impl/src/main/java/org/jboss/webbeans/bean/AbstractBean.java:264-289 | a non-empty `@Named` value wins; an empty `@Named` or a stereotype asking for defaulting gives the default name; otherwise the name so far is kept |
| WebBeans.SelectDeploymentTypeIsHighestPresent | impl/src/main/java/org/jboss/webbeans/bean/AbstractBean.java:85-95 | the selection is None exactly when no index from 1 up holds a candidate, and otherwise is `enabled[i]` with i >= 1, a candidate, and no candidate above it |
| WebBeans.SelectDeploymentTypeIgnoresIndexZero | impl/src/main/java/org/jboss/webbeans/bean/AbstractBean.java:87 | the loop bound `i > 0`: replacing the entry at index 0 never changes the selection |
| WebBeans.HighestPriorityNotFirstDeclared | impl/src/main/java/org/jboss/webbeans/bean/AbstractBean.java:85-95 | with enabled `[a, b, c]` and candidates a and c, the selection is c (the higher priority), not a |
| WebBeans.AbstractBean.constructor | impl/src/main/java/org/jboss/webbeans/bean/AbstractBean.java:136-142 | a new bean records its manager, item and bean type and starts with no bindings, name, scope, deployment type, injection points or `@Decorates` points, with the primitive, serializable and proxyable flags false and empty merged stereotypes |
| WebBeans.AbstractBean.GetDeploymentType | impl/src/main/java/org/jboss/webbeans/bean/AbstractBean.java:85-95 | the backward scan returns `SelectDeploymentType`: None iff no index in 1..size-1 is a candidate, else the highest-index candidate, at an index >= 1 |
| WebBeans.AbstractBean.IsSpecializing | impl/src/main/java/org/jboss/webbeans/bean/AbstractBean.java:576-579 | true exactly when the item carries `@Specializes` |
| WebBeans.AbstractBean.InitBindings | impl/src/main/java/org/jboss/webbeans/bean/AbstractBean.java:209-214 | the bindings become the item's binding types with the defaults installed |
| WebBeans.AbstractBean.InitDefaultBindings | impl/src/main/java/org/jboss/webbeans/bean/AbstractBean.java:218-235 | the new bindings are `DefaultBindings` of the old ones; only `bindings` changes |
| WebBeans.AbstractBean.InitDeploymentTypeFromStereotype | impl/src/main/java/org/jboss/webbeans/bean/AbstractBean.java:242-252 | with stereotype candidates the deployment type becomes the highest-priority enabled candidate (or None); with none it is unchanged |
| WebBeans.AbstractBean.InitName | impl/src/main/java/org/jboss/webbeans/bean/AbstractBean.java:264-289 | the new name is `ResolvedName` of the `@Named` value, the stereotypes' defaulting flag, the default name and the old name |
| WebBeans.AbstractBean.InitProxyable | impl/src/main/java/org/jboss/webbeans/bean/AbstractBean.java:291-294 | the proxyable flag becomes the item's |
| WebBeans.AbstractBean.InitPrimitive | impl/src/main/java/org/jboss/webbeans/bean/AbstractBean.java:299-302 | the primitive flag becomes whether the bean class is primitive |
| WebBeans.AbstractBean.InitSerializable | impl/src/main/java/org/jboss/webbeans/bean/AbstractBean.java:547-550 | the serializable flag becomes whether the bean class is serializable |
| WebBeans.AbstractBean.InitScopeTypeFromStereotype | impl/src/main/java/org/jboss/webbeans/bean/AbstractBean.java:327-345 | exactly one possible scope: the scope becomes its annotation type and the result is true; several: `AmbiguousScope` with the scope unchanged; none: false with the scope unchanged |
| WebBeans.AbstractBean.CheckDeploymentType | impl/src/main/java/org/jboss/webbeans/bean/AbstractBean.java:350-360 | passes iff a deployment type is set and, if it is `@Standard`, the raw type is one of the three allow-listed classes; `MissingDeploymentType` iff none is set, `StandardNotAllowed` iff `@Standard` on another class |
| WebBeans.AbstractBean.CheckRequiredTypesImplemented | impl/src/main/java/org/jboss/webbeans/bean/AbstractBean.java:365-376 | passes iff every required type of the merged stereotypes is assignable from the bean class; a failure names a required type that is not |
| WebBeans.AbstractBean.PostSpecialize | impl/src/main/java/org/jboss/webbeans/bean/AbstractBean.java:378-391 | fails, changing nothing, iff both beans carry `@Named`; otherwise the bindings gain the specialized bean's; a named specialized bean gives its name and leaves the map alone, else the map gains exactly specialized -> this |
| WebBeans.AbstractBean.Specialize | impl/src/main/java/org/jboss/webbeans/bean/AbstractBean.java:151-156 | for a specializing bean, the empty pre-specialize and specialize hooks then `PostSpecialize`: it fails iff both beans carry `@Named`, and a failure leaves bindings and name unchanged; otherwise nothing changes and the outcome passes |
| WebBeans.AbstractBean.ResolveMetadata | impl/src/main/java/org/jboss/webbeans/bean/AbstractBean.java:157-166 | the bindings get their defaults and the primitive flag and the name are resolved, whatever happens next; then the deployment-type hook's error is reported as is, or its type is set and checked (`MissingDeploymentType`, `StandardNotAllowed`), then the scope hook's error is reported as is; the outcome passes iff both hooks succeed and the type is allowed, and only then are scope, serializable and proxyable set, otherwise they are unchanged |
| WebBeans.AbstractBean.CheckTypesAndInjectionPoints | impl/src/main/java/org/jboss/webbeans/bean/AbstractBean.java:167-170 | a missing required type fails first, then an error of the injection-point hook, both leaving the injection points alone; otherwise the hook's points are stored and the `@Decorates` set collected, and the outcome fails with `DecoratesOutsideDecorator` iff that set is non-empty |
| WebBeans.AbstractBean.InitDecorates | impl/src/main/java/org/jboss/webbeans/bean/AbstractBean.java:181-191 | the collected set is exactly the injection points carrying `@Decorates` |
| WebBeans.AbstractBean.CheckDecorates | impl/src/main/java/org/jboss/webbeans/bean/AbstractBean.java:173-179 | fails, with `DecoratesOutsideDecorator`, iff some injection point carries `@Decorates` |
| WebBeans.AbstractBean.CheckInjectionPointsAreSerializable | impl/src/main/java/org/jboss/webbeans/bean/AbstractBean.java:304-320 | false iff the scope is passivating and some injection point resolves to a Dependent, non-serializable bean and is a non-transient field or a parameter |
| WebBeans.AbstractBean.IsSerializable | impl/src/main/java/org/jboss/webbeans/bean/AbstractBean.java:542-545 | the serializable flag and the injection-point check, both |
| WebBeans.AbstractBean.IsNullable | impl/src/main/java/org/jboss/webbeans/bean/AbstractBean.java:526-529 | nullable iff not primitive |
| WebBeans.AbstractBean.IsDependent | impl/src/main/java/org/jboss/webbeans/bean/AbstractBean.java:570-573 | dependent iff the scope is `@Dependent` (a missing scope is not) |
| WebBeans.AbstractBean.Initialize | impl/src/main/java/org/jboss/webbeans/bean/AbstractBean.java:148-171 | passes iff no name conflict, the deployment-type hook succeeds with an allowed type, the scope hook succeeds, every required type is implemented, the injection-point hook succeeds and no point carries `@Decorates`; otherwise reports the error of the first failing step in source order, a hook's own error included; on success the bean is nullable iff its type is not primitive and dependent iff the scope hook gave `@Dependent`; on success the whole metadata state is the composition of the steps in source order, and the specialized-beans map changes only when a bean specializes an unnamed one; a name adopted through specialization survives unless the stereotypes ask for a defaulted name |
| Backed.Wrap | impl/src/main/java/org/jboss/weld/annotated/slim/backed/BackedAnnotatedParameter.java:85-91 | Java `int` arithmetic: the result is congruent to the exact value modulo 2^32 |
| Backed.WrapCongruent | impl/src/main/java/org/jboss/weld/annotated/slim/backed/BackedAnnotatedParameter.java:85-91 | wrapping depends only on the value modulo 2^32 |
| Backed.SerializationProxy.ReadResolve | impl/src/main/java/org/jboss/weld/annotated/slim/backed/BackedAnnotatedParameter.java:140-142 | succeeds iff the token has a callable and the position indexes its parameter list, and then returns `getParameters()[position]`; otherwise the null-callable or out-of-range error |
| Backed.Distinct | impl/src/main/java/org/jboss/weld/annotated/slim/backed/BackedAnnotatedParameter.java:45 | copying the array into the annotation set keeps exactly its elements, without duplicates |
| Backed.FindAnnotationIsFirst | impl/src/main/java/org/jboss/weld/annotated/slim/backed/BackedAnnotatedParameter.java:61-68 | the search finds nothing iff no annotation has the type, and otherwise the first one that has it |
| Backed.FindAnnotationAppend | impl/src/main/java/org/jboss/weld/annotated/slim/backed/BackedAnnotatedParameter.java:61-68 | searching a concatenation searches the left part first |
| Backed.FindAnnotationDistinct | impl/src/main/java/org/jboss/weld/annotated/slim/backed/BackedAnnotatedParameter.java:45 | searching the set finds the same annotation as searching the input array |
| Backed.BackedAnnotatedParameter.constructor | impl/src/main/java/org/jboss/weld/annotated/slim/backed/BackedAnnotatedParameter.java:41-46 | stores position and declaring callable unchanged; the annotations are the distinct input elements, as a set equal to the input's |
| Backed.BackedAnnotatedParameter.Of | impl/src/main/java/org/jboss/weld/annotated/slim/backed/BackedAnnotatedParameter.java:33-35 | returns a fresh view with the same base type, position and declaring callable, whose annotations are the distinct input annotations in first-occurrence order |
| Backed.BackedAnnotatedParameter.GetAnnotation | impl/src/main/java/org/jboss/weld/annotated/slim/backed/BackedAnnotatedParameter.java:61-68 | returns the first annotation in iteration order whose type is t, or None iff there is none |
| Backed.BackedAnnotatedParameter.IsAnnotationPresent | impl/src/main/java/org/jboss/weld/annotated/slim/backed/BackedAnnotatedParameter.java:80-82 | true iff some annotation has type t |
| Backed.BackedAnnotatedParameter.AnnotatedElement | impl/src/main/java/org/jboss/weld/annotated/slim/backed/BackedAnnotatedParameter.java:76-78 | always null |
| Backed.BackedAnnotatedParameter.Equals | impl/src/main/java/org/jboss/weld/annotated/slim/backed/BackedAnnotatedParameter.java:94-110 | true iff the other object is a parameter view with an equal declaring callable (both null counts as equal) and the same position |
| Backed.BackedAnnotatedParameter.HashCode | impl/src/main/java/org/jboss/weld/annotated/slim/backed/BackedAnnotatedParameter.java:85-91 | the step-by-step accumulation equals `31 * (31 + h(callable)) + position` in `int` arithmetic, with 0 for a null callable |
| Backed.BackedAnnotatedParameter.WriteReplace | impl/src/main/java/org/jboss/weld/annotated/slim/backed/BackedAnnotatedParameter.java:119-121 | the token holds exactly the declaring callable and the position |
| Backed.BackedAnnotatedParameter.ReadObject | impl/src/main/java/org/jboss/weld/annotated/slim/backed/BackedAnnotatedParameter.java:123-125 | always fails with the proxy-required error |
| Backed.EqualsIsEquivalence | impl/src/main/java/org/jboss/weld/annotated/slim/backed/BackedAnnotatedParameter.java:94-110 | `Equals` is reflexive, symmetric and transitive |
| Backed.NotEqualToNull | impl/src/main/java/org/jboss/weld/annotated/slim/backed/BackedAnnotatedParameter.java:97-98 | no view equals null |
| Backed.EqualsIgnoresAnnotations | impl/src/main/java/org/jboss/weld/annotated/slim/backed/BackedAnnotatedParameter.java:94-110 | views with the same callable and position are equal whatever their annotations and declared types |
| Backed.DifferentPositionsUnequal | impl/src/main/java/org/jboss/weld/annotated/slim/backed/BackedAnnotatedParameter.java:107-108 | two views of one callable at different positions are unequal |
| Backed.EqualsImpliesSameHash | impl/src/main/java/org/jboss/weld/annotated/slim/backed/BackedAnnotatedParameter.java:85-110 | equal views have equal hash codes, whatever the callables' hash function |
| Backed.TokenIsIdentity | impl/src/main/java/org/jboss/weld/annotated/slim/backed/BackedAnnotatedParameter.java:94-121 | two views serialize to the same token iff they are equal |
| Backed.RoundTripIdentity | impl/src/main/java/org/jboss/weld/annotated/slim/backed/BackedAnnotatedParameter.java:119-142 | a view stored at its own position in its callable's parameter list restores to the identical object |
| Backed.RoundTripCanonical | impl/src/main/java/org/jboss/weld/annotated/slim/backed/BackedAnnotatedParameter.java:119-142 | when every callable's list holds its own parameters at their positions, a restored view equals the serialized one, and equal views restore to the same object |

## Left out

- Logging: trace and debug output has no effect on the metadata.
- Merged stereotypes are an input record (possible scopes, possible deployment types, the name-defaulting flag, required types); the code that merges stereotypes is not part of this model.
- Reflection (`Reflections.isPrimitive`, `Reflections.isSerializable`, `Class.isAssignableFrom`) is given as sets of facts, and the item's proxyability as a flag of the item, because their implementations are not part of this model.
- Container lookups are foreign calls and are given as fields of `BeanManager`: the enabled deployment types, whether a scope is passivating, and the bean an injection point resolves to. The model assumes `getBeans` finds at least one bean, as the code does by calling `iterator().next()`.
- The subclass hooks (`initDeploymentType`, `initScopeType`, `initInjectionPoints`, `getDefaultName`, `getSpecializedBean`) are parameters of `Initialize`. The first three are each given as what the hook assigns or the `DefinitionError` it raises (for example the `AmbiguousScope` of `InitScopeTypeFromStereotype`); a failing hook is assumed to leave the field it initialises unchanged. The `preSpecialize` and `specialize` hooks are empty in this class, so `Specialize` runs only `PostSpecialize`.
- `initTypes`, the type closure, the `initialized` flag, `getTypes`, `isAssignableFrom(AnnotatedItem)`, the getters, `toString`, `DependentInstancesStore` and the `RIBean` superclass are runtime plumbing and are not modelled.
- The model starts a bean with an empty binding set. In the source, `bindings` is null until `initBindings` runs.
- A `DefinitionException` is a returned `Fail`/`Failure` value. The exception messages are not modelled.
- Annotations keep only their type and one value string. Annotation equality is value equality.
- A declaring callable is a value. Its `equals` is value equality, and its `hashCode` is a parameter of `HashCode`.
- Java object serialization is not modelled. `writeReplace`, `readObject` and `readResolve` are modelled as the explicit token and its resolution. A null callable and an out-of-range position are modelled as errors rather than as Java runtime exceptions.
- The caches and library wrappers are not modelled: `SharedObjectCache`, `SharedObjectFacade`, `LazyValueHolder`, `ClassTransformer`, `ReflectionCache` and `initTypeClosure`.
- Concurrent access to the specialized-beans map is not modelled.
- `getDeploymentType` is modelled as written: its javadoc (AbstractBean.java:76-79) promises the first enabled type present in the candidates, scanning backwards, but the loop bound `i > 0` at AbstractBean.java:87 never examines index 0, so a candidate held only at index 0 yields no deployment type. `SelectDeploymentTypeIgnoresIndexZero` states this. It is not listed as a finding because the source gives no way to tell whether the bound is deliberate.

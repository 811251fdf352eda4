# Spring AOP chain resolution, proxy selection and ObjectProvider defaults in Dafny

This project models three deterministic rules of the Spring Framework. Reflection is replaced by abstract values and boolean facts.

- **Advice-chain resolution** (`DefaultAdvisorChainFactory`), in `advisor_chain.dfy`, module `AdvisorChainFactory`. The configuration holds an ordered sequence of advisors, and the result is the ordered list of interceptors for one method of one target class. The model keeps the imperative shape of Spring's code. `GetInterceptorsAndDynamicInterceptionAdvice` is a loop that grows `interceptorList`. It has an inner loop that wraps each interceptor of a runtime matcher. It fills in the `hasIntroductions` flag lazily, using `Option<bool>` where Java uses a `null` `Boolean`. `HasMatchingIntroductions` is a loop with an early return. Both methods are proved against ghost specification functions:
  - `Contribution` gives what one advisor adds;
  - `AdviceChain` gives the concatenation of those contributions in advisor order;
  - `IntroductionMatches` says whether an introduction advisor's class filter accepts the class.

  Further lemmas place each advisor's block inside the chain.
  - Classes are a type parameter `C`, advice is `A` and interceptors are `I`.
  - A class filter is a predicate `C -> bool`.
  - A method matcher is either a plain matcher or an introduction-aware matcher. The introduction-aware one also receives the `hasIntroductions` flag. Each matcher has an `isRuntime` flag.
  - The advisor adapter registry is a parameter `Advisor<C, A> -> seq<I>`.
- **Proxy-strategy selection** (`DefaultAopProxyFactory`), in `aop_proxy_factory.dfy`, module `AopProxyFactory`. This part is pure. `CreateAopProxy` returns either a JDK dynamic proxy or a CGLIB proxy, each built from the configuration, or it returns an `AopConfigException` carrying Spring's message. `JavaClass` describes both the target class and each proxied interface by three facts, each read from one of them: `isInterface` and `Proxy.isProxyClass` are asked of the target class, and "assignable to `SpringProxy`" of each proxied interface.
- **ObjectProvider default methods**, in `object_provider.dfy`, module `ObjectProviders`. This part is pure. A provider is described by the outcomes of its two abstract lookups, `getIfAvailable()` and `getIfUnique()`. Each outcome is an instance, `null`, or a `BeansException`: the type `LookupError` admits no other exception. The methods' own results use `ProviderError`, which adds `UnsupportedOperationException` and `OtherException`, any other exception that a default supplier throws.
  - A supplier is modelled as the outcome that calling it would produce.
  - A consumer is modelled as the sequence of values handed to it.
  - The default `stream()` and `orderedStream()` fail with `UnsupportedOperationException`, carrying Spring's messages. `iterator()` fails the same way because it goes through `stream()`.

The class Javadoc of `DefaultAopProxyFactory` says that a CGLIB proxy is created whenever `optimize`, `proxyTargetClass` or "no proxy interfaces" holds. The code refines this rule:
- an interface or an existing JDK proxy class still gets a JDK proxy;
- an unknown target class raises `AopConfigException`.

The model follows the code.

## Model

| member | source | states |
|---|---|---|
| `AdvisorChainFactory.ActualClass` | spring-aop/src/main/java/org/springframework/aop/framework/DefaultAdvisorChainFactory.java:70 | Filters and matchers are asked about the target class when it is known. Otherwise they are asked about the method's declaring class. |
| `AdvisorChainFactory.HasMatchingIntroductions` | spring-aop/src/main/java/org/springframework/aop/framework/DefaultAdvisorChainFactory.java:140-150 | The scan returns true exactly when some introduction advisor's class filter accepts the class. Pre-filtering plays no part. |
| `AdvisorChainFactory.GetInterceptorsAndDynamicInterceptionAdvice` | spring-aop/src/main/java/org/springframework/aop/framework/DefaultAdvisorChainFactory.java:56-135 | The list built in place equals the advisors' contributions, concatenated in advisor order. Every introduction-aware matcher receives the same `hasIntroductions` value, which equals `IntroductionMatches`, however many times the value is needed. |
| `AdvisorChainFactory.AdviceChainAppend` | spring-aop/src/main/java/org/springframework/aop/framework/DefaultAdvisorChainFactory.java:74-131 | The chain for `xs + ys` is the chain for `xs` followed by the chain for `ys`. So earlier advisors' interceptors come first. |
| `AdvisorChainFactory.AdviceChainSplit` | spring-aop/src/main/java/org/springframework/aop/framework/DefaultAdvisorChainFactory.java:74-131 | Advisor i's entries sit, unchanged and contiguous, between the entries of all earlier advisors and those of all later advisors. |
| `AdvisorChainFactory.SilentAdvisorRemovable` | spring-aop/src/main/java/org/springframework/aop/framework/DefaultAdvisorChainFactory.java:74-131 | An advisor that contributes nothing can be removed from the advisor sequence without changing the chain, with the matching context (including `hasIntroductions`) held fixed. |
| `AdvisorChainFactory.IntroductionMatchesWithout` | spring-aop/src/main/java/org/springframework/aop/framework/DefaultAdvisorChainFactory.java:140-150 | Removing an advisor that is not an introduction advisor accepting the class leaves the `hasMatchingIntroductions` answer unchanged. |
| `AdvisorChainFactory.SilentAdvisorRemovableFromConfiguration` | spring-aop/src/main/java/org/springframework/aop/framework/DefaultAdvisorChainFactory.java:56-135 | Take an advisor that contributes nothing and is not an introduction advisor accepting the class. Removing it from the configuration leaves the factory's chain unchanged, although `hasIntroductions` is recomputed for the smaller configuration. |
| `AdvisorChainFactory.SilentIntroductionAdvisorNotRemovable` | spring-aop/src/main/java/org/springframework/aop/framework/DefaultAdvisorChainFactory.java:74-131 | The restriction above is needed. Take an introduction advisor that accepts every class but has no interceptors, followed by an introduction-aware pointcut advisor that matches only when introductions apply. The first contributes nothing, yet removing it turns `hasIntroductions` off and empties the chain. |
| `AdvisorChainFactory.PointcutAdvisorNeedsBothMatches` | spring-aop/src/main/java/org/springframework/aop/framework/DefaultAdvisorChainFactory.java:82-99 | A pointcut advisor adds nothing unless two conditions hold. First, pre-filtering or its class filter admits the class. Second, its method matcher matches. |
| `AdvisorChainFactory.RuntimeMatcherWrapsEachInterceptor` | spring-aop/src/main/java/org/springframework/aop/framework/DefaultAdvisorChainFactory.java:104-109 | Take a matched pointcut advisor with a runtime matcher. Its block has as many entries as the registry gives interceptors. Entry k wraps interceptor k together with that same matcher. |
| `AdvisorChainFactory.StaticMatcherKeepsInterceptors` | spring-aop/src/main/java/org/springframework/aop/framework/DefaultAdvisorChainFactory.java:111-114 | Take a matched pointcut advisor whose matcher is not runtime. Its block is exactly the registry's interceptors, unwrapped and in the registry's order. |
| `AdvisorChainFactory.IntroductionAdvisorContributesIffAdmitted` | spring-aop/src/main/java/org/springframework/aop/framework/DefaultAdvisorChainFactory.java:119-124 | An introduction advisor adds all its interceptors, unwrapped, when pre-filtering or its class filter admits the class. Otherwise it adds nothing. |
| `AdvisorChainFactory.OtherAdvisorAlwaysContributes` | spring-aop/src/main/java/org/springframework/aop/framework/DefaultAdvisorChainFactory.java:126-130 | Any other advisor adds all its interceptors, unwrapped, whatever the class and the method. |
| `AopProxyFactory.HasNoUserSuppliedProxyInterfaces` | spring-aop/src/main/java/org/springframework/aop/framework/DefaultAopProxyFactory.java:82-88 | This holds exactly when there is at most one proxied interface and every proxied interface is assignable to `SpringProxy`. |
| `AopProxyFactory.CreateAopProxy` | spring-aop/src/main/java/org/springframework/aop/framework/DefaultAopProxyFactory.java:54-75 | A proxy is always built from the given configuration. `AopConfigException`, with its message, is raised exactly when a class proxy is requested and the target class is unknown. CGLIB is chosen exactly when a class proxy is requested for a known class that is neither an interface nor a JDK proxy class. |
| `AopProxyFactory.JdkProxyUnlessClassProxyRequested` | spring-aop/src/main/java/org/springframework/aop/framework/DefaultAopProxyFactory.java:58-74 | If none of `optimize`, `proxyTargetClass` or "no user interfaces" holds, the result is a JDK proxy, even when the target class is unknown. |
| `AopProxyFactory.InterfaceTargetGetsJdkProxy` | spring-aop/src/main/java/org/springframework/aop/framework/DefaultAopProxyFactory.java:66-68 | A target class that is an interface or already a JDK proxy class always gets a JDK proxy. |
| `AopProxyFactory.UserInterfaceSelectsJdkProxy` | spring-aop/src/main/java/org/springframework/aop/framework/DefaultAopProxyFactory.java:82-88 | Suppose neither `optimize` nor `proxyTargetClass` is set. Then naming a non-`SpringProxy` interface, or two or more interfaces of any kind, selects a JDK proxy. |
| `ObjectProviders.ObjectProvider.GetIfAvailable` | spring-beans/src/main/java/org/springframework/beans/factory/ObjectProvider.java:78-81 | Returns the available instance if there is one. Returns the supplier's outcome only when the lookup returned null. Propagates the lookup's `BeansException`. |
| `ObjectProviders.ObjectProvider.IfAvailable` | spring-beans/src/main/java/org/springframework/beans/factory/ObjectProvider.java:92-97 | Calls the consumer exactly once, with the instance, when one is available. Never calls it otherwise. Fails exactly when the lookup fails, with the lookup's own `BeansException`. |
| `ObjectProviders.ObjectProvider.GetIfUnique` | spring-beans/src/main/java/org/springframework/beans/factory/ObjectProvider.java:122-125 | Returns the unique instance if there is one. Otherwise returns the supplier's outcome. Propagates the lookup's `BeansException`. |
| `ObjectProviders.ObjectProvider.IfUnique` | spring-beans/src/main/java/org/springframework/beans/factory/ObjectProvider.java:136-141 | Calls the consumer exactly once, with the instance, exactly when a unique instance exists. Fails exactly when the lookup fails, with the lookup's own `BeansException`. |
| `ObjectProviders.ObjectProvider.Iterator` | spring-beans/src/main/java/org/springframework/beans/factory/ObjectProvider.java:150-152 | Yields what `stream()` yields. So by default it fails with `UnsupportedOperationException("Multi element access not supported")`. |
| `ObjectProviders.ObjectProvider.Stream` | spring-beans/src/main/java/org/springframework/beans/factory/ObjectProvider.java:163-165 | Always fails with `UnsupportedOperationException("Multi element access not supported")`. |
| `ObjectProviders.ObjectProvider.OrderedStream` | spring-beans/src/main/java/org/springframework/beans/factory/ObjectProvider.java:182-184 | Always fails with `UnsupportedOperationException("Ordered element access not supported")`. |
| `ObjectProviders.SupplierOnlyWhenUnavailable` | spring-beans/src/main/java/org/springframework/beans/factory/ObjectProvider.java:78-81 | The result can depend on the supplier only when the lookup returned null. In that case the result is the supplier's outcome. |
| `ObjectProviders.IfAvailableAgreesWithGetIfAvailable` | spring-beans/src/main/java/org/springframework/beans/factory/ObjectProvider.java:78-97 | For the same outcome of `getIfAvailable()`, `ifAvailable` hands the consumer x exactly when `getIfAvailable(supplier)` returns x for every supplier. |
| `ObjectProviders.IfUniqueAgreesWithGetIfUnique` | spring-beans/src/main/java/org/springframework/beans/factory/ObjectProvider.java:122-141 | For the same outcome of `getIfUnique()`, `ifUnique` hands the consumer x exactly when `getIfUnique(supplier)` returns x for every supplier. |

## Left out

- Reflection is abstract. `Method`, `Class`, `isInterface`, `Proxy.isProxyClass`, `isAssignableFrom`, class filters and method matchers are inputs: opaque types, booleans and predicates.
- The three advisor kinds are disjoint constructors. In Spring the kinds are tested with `instanceof`, and `PointcutAdvisor` is tested first. So an advisor that implements both `PointcutAdvisor` and `IntroductionAdvisor` is matched as a pointcut advisor, yet `hasMatchingIntroductions` still counts it as an introduction. The model cannot express such an advisor.
- `GlobalAdvisorAdapterRegistry` is a function parameter. Its `UnknownAdviceTypeException` for unsupported advice is not modelled.
- The advisors are a read-only `seq` rather than a Java array. The interceptor list is a local `seq` that the method reassigns. The list's initial capacity has no observable effect and is not modelled.
- Proxy construction is not modelled. `JdkDynamicAopProxy` and `ObjenesisCglibAopProxy` are tags carrying the configuration. The bytecode generation behind them is not part of this model.
- The abstract lookups `getObject(Object...)`, `getIfAvailable()` and `getIfUnique()` have no body in Spring's interface. Their outcomes are inputs.
- Each abstract lookup is modelled as one fixed outcome. A real provider may return a different instance on every call, for example for a prototype bean (the instance is "possibly shared or independent"). So the agreement lemmas between `ifAvailable`/`ifUnique` and `getIfAvailable`/`getIfUnique` hold only for the same lookup outcome, not across two separate calls.
- An exception thrown by a consumer passed to `ifAvailable` or `ifUnique` is not modelled. Neither is a `null` returned by a supplier. The model passes on whatever the supplier produces.
- Implementations that override `stream()` are not modelled. So are the comparator-based ordering behind `orderedStream()` and the rest of the `Iterator`/`Stream` protocol. Only the defaults shown are modelled.
- The tutorial and demo classes are not part of this model. Neither are the bean-lifecycle callbacks, `AspectJAutoProxyRegistrar`, `SmartInitializingSingleton` or `HierarchicalBeanFactory`. They are driven by the container, or have no behaviour of their own.

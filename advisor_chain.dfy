/**
 * DefaultAdvisorChainFactory: the ordered list of interceptors that apply to
 * one method of one target class, worked out from the configuration's
 * advisors. Reflection is abstracted: `C` stands for a loaded class, `A` for a
 * piece of advice and `I` for an interceptor; class filters and method
 * matchers are predicates, and the advisor adapter registry is a function
 * from an advisor to its interceptors, in the registry's order.
 */
module AdvisorChainFactory {
  import opened Wrappers

  /** A reflective method; of it the factory only reads the declaring class. */
  datatype JavaMethod<C> = JavaMethod(declaringClass: C)

  /** A pointcut's method matcher; `isRuntime` asks for a further check on every invocation. */
  datatype MethodMatcher<!C> =
    | PlainMatcher(matches: (JavaMethod<C>, C) -> bool, isRuntime: bool)
    | IntroductionAwareMatcher(matchesWithIntroductions: (JavaMethod<C>, C, bool) -> bool, isRuntime: bool)

  datatype Advisor<!C, A> =
    | PointcutAdvisor(advice: A, classFilter: C -> bool, methodMatcher: MethodMatcher<C>)
    | IntroductionAdvisor(advice: A, classFilter: C -> bool)
    | OtherAdvisor(advice: A)   // neither kind: applies to every method of every class

  /** One element of the resulting chain: an interceptor, or one wrapped with its runtime matcher. */
  datatype ChainEntry<!C, I> =
    | Interceptor(interceptor: I)
    | InterceptorAndDynamicMethodMatcher(interceptor: I, matcher: MethodMatcher<C>)

  /** The parts of the Advised configuration that the factory reads. */
  datatype Advised<!C, A> = Advised(advisors: seq<Advisor<C, A>>, preFiltered: bool)

  /** Everything that decides one advisor's contribution, fixed for one call of the factory. */
  datatype Matching<!C, !A, I> = Matching(
    preFiltered: bool,
    targetMethod: JavaMethod<C>,
    actualClass: C,
    hasIntroductions: bool,
    registry: Advisor<C, A> -> seq<I>)

  /** The class that filters and matchers are asked about: the target class if known, else the method's declaring class. */
  function ActualClass<C>(targetMethod: JavaMethod<C>, targetClass: Option<C>): (c: C)
    ensures targetClass.Some? ==> c == targetClass.value
    ensures targetClass.None? ==> c == targetMethod.declaringClass
  {
    match targetClass
    case Some(cls) => cls
    case None => targetMethod.declaringClass
  }

  /** Some introduction advisor's class filter accepts the class (pre-filtering plays no part here). */
  ghost predicate IntroductionMatches<C, A>(advisors: seq<Advisor<C, A>>, actualClass: C) {
    exists k :: 0 <= k < |advisors| && advisors[k].IntroductionAdvisor? && advisors[k].classFilter(actualClass)
  }

  /** The static match of a method matcher, given whether introductions apply. */
  function StaticMatch<C>(mm: MethodMatcher<C>, targetMethod: JavaMethod<C>, actualClass: C, hasIntroductions: bool): bool {
    match mm
    case PlainMatcher(matches, _) => matches(targetMethod, actualClass)
    case IntroductionAwareMatcher(matches, _) => matches(targetMethod, actualClass, hasIntroductions)
  }

  /** Interceptors appended as they are. */
  function Unwrapped<C, I>(interceptors: seq<I>): seq<ChainEntry<C, I>> {
    seq(|interceptors|, k requires 0 <= k < |interceptors| => Interceptor(interceptors[k]))
  }

  /** Interceptors each wrapped with the same runtime matcher. */
  function Wrapped<C, I>(interceptors: seq<I>, mm: MethodMatcher<C>): seq<ChainEntry<C, I>> {
    seq(|interceptors|, k requires 0 <= k < |interceptors| => InterceptorAndDynamicMethodMatcher(interceptors[k], mm))
  }

  /** The part of the chain that one advisor adds. */
  ghost function Contribution<C, A, I>(advisor: Advisor<C, A>, ctx: Matching<C, A, I>): seq<ChainEntry<C, I>> {
    match advisor
    case PointcutAdvisor(_, classFilter, mm) =>
      if (ctx.preFiltered || classFilter(ctx.actualClass))
         && StaticMatch(mm, ctx.targetMethod, ctx.actualClass, ctx.hasIntroductions) then
        if mm.isRuntime then Wrapped(ctx.registry(advisor), mm) else Unwrapped(ctx.registry(advisor))
      else []
    case IntroductionAdvisor(_, classFilter) =>
      if ctx.preFiltered || classFilter(ctx.actualClass) then Unwrapped(ctx.registry(advisor)) else []
    case OtherAdvisor(_) =>
      Unwrapped(ctx.registry(advisor))
  }

  /** The whole chain: the advisors' contributions, in advisor order. */
  ghost function AdviceChain<C, A, I>(advisors: seq<Advisor<C, A>>, ctx: Matching<C, A, I>): seq<ChainEntry<C, I>>
    decreases |advisors|
  {
    if advisors == [] then []
    else AdviceChain(advisors[..|advisors| - 1], ctx) + Contribution(advisors[|advisors| - 1], ctx)
  }

  /** The matching context of one call of the factory. */
  ghost function CallContext<C, A, I>(config: Advised<C, A>, targetMethod: JavaMethod<C>, targetClass: Option<C>,
                                      registry: Advisor<C, A> -> seq<I>): Matching<C, A, I>
  {
    var actualClass := ActualClass(targetMethod, targetClass);
    Matching(config.preFiltered, targetMethod, actualClass, IntroductionMatches(config.advisors, actualClass), registry)
  }

  /** hasMatchingIntroductions: scans the advisors and stops at the first introduction advisor whose class filter matches. */
  method HasMatchingIntroductions<C, A>(advisors: seq<Advisor<C, A>>, actualClass: C) returns (found: bool)
    ensures found == IntroductionMatches(advisors, actualClass)
  {
    for i := 0 to |advisors|
      invariant forall k :: 0 <= k < i ==> !(advisors[k].IntroductionAdvisor? && advisors[k].classFilter(actualClass))
    {
      var advisor := advisors[i];
      if advisor.IntroductionAdvisor? {
        if advisor.classFilter(actualClass) {
          return true;
        }
      }
    }
    return false;
  }

  /**
   * getInterceptorsAndDynamicInterceptionAdvice: grows the interceptor list
   * advisor by advisor. Whether introductions match is computed at most once,
   * the first time an introduction-aware matcher needs it.
   */
  method GetInterceptorsAndDynamicInterceptionAdvice<C, A, I>(
    config: Advised<C, A>, targetMethod: JavaMethod<C>, targetClass: Option<C>, registry: Advisor<C, A> -> seq<I>)
    returns (interceptorList: seq<ChainEntry<C, I>>)
    ensures interceptorList == AdviceChain(config.advisors, CallContext(config, targetMethod, targetClass, registry))
  {
    var advisors := config.advisors;
    interceptorList := [];
    var actualClass := ActualClass(targetMethod, targetClass);
    var hasIntroductions: Option<bool> := None;
    ghost var ctx := CallContext(config, targetMethod, targetClass, registry);

    for i := 0 to |advisors|
      invariant interceptorList == AdviceChain(advisors[..i], ctx)
      invariant hasIntroductions.Some? ==> hasIntroductions.value == ctx.hasIntroductions
    {
      var advisor := advisors[i];
      ghost var before := interceptorList;
      match advisor {
        case PointcutAdvisor(_, classFilter, mm) =>
          if config.preFiltered || classFilter(actualClass) {
            var matched: bool;
            if mm.IntroductionAwareMatcher? {
              if hasIntroductions.None? {
                var found := HasMatchingIntroductions(advisors, actualClass);
                hasIntroductions := Some(found);
              }
              matched := mm.matchesWithIntroductions(targetMethod, actualClass, hasIntroductions.value);
            } else {
              matched := mm.matches(targetMethod, actualClass);
            }
            if matched {
              var interceptors := registry(advisor);
              if mm.isRuntime {
                for j := 0 to |interceptors|
                  invariant interceptorList == before + Wrapped(interceptors[..j], mm)
                {
                  interceptorList := interceptorList + [InterceptorAndDynamicMethodMatcher(interceptors[j], mm)];
                }
                assert interceptors[..|interceptors|] == interceptors;
              } else {
                interceptorList := interceptorList + Unwrapped(interceptors);
              }
            }
          }
        case IntroductionAdvisor(_, classFilter) =>
          if config.preFiltered || classFilter(actualClass) {
            var interceptors := registry(advisor);
            interceptorList := interceptorList + Unwrapped(interceptors);
          }
        case OtherAdvisor(_) =>
          var interceptors := registry(advisor);
          interceptorList := interceptorList + Unwrapped(interceptors);
      }
      assert interceptorList == before + Contribution(advisor, ctx);
      assert advisors[..i + 1][..i] == advisors[..i];
    }
    assert advisors[..|advisors|] == advisors;
  }

  /** Appending advisors appends their chains: the chain keeps advisor order. */
  lemma {:induction false} AdviceChainAppend<C, A, I>(xs: seq<Advisor<C, A>>, ys: seq<Advisor<C, A>>, ctx: Matching<C, A, I>)
    ensures AdviceChain(xs + ys, ctx) == AdviceChain(xs, ctx) + AdviceChain(ys, ctx)
    decreases |ys|
  {
    if ys == [] {
      assert xs + ys == xs;
    } else {
      var n := |ys| - 1;
      assert (xs + ys)[..|xs + ys| - 1] == xs + ys[..n];
      assert (xs + ys)[|xs + ys| - 1] == ys[n];
      AdviceChainAppend(xs, ys[..n], ctx);
    }
  }

  /**
   * Advisor i's entries sit, unchanged, between everything the earlier
   * advisors contribute and everything the later ones contribute.
   */
  lemma AdviceChainSplit<C, A, I>(advisors: seq<Advisor<C, A>>, i: nat, ctx: Matching<C, A, I>)
    requires i < |advisors|
    ensures AdviceChain(advisors, ctx) ==
      AdviceChain(advisors[..i], ctx) + Contribution(advisors[i], ctx) + AdviceChain(advisors[i + 1..], ctx)
  {
    assert advisors == advisors[..i + 1] + advisors[i + 1..];
    AdviceChainAppend(advisors[..i + 1], advisors[i + 1..], ctx);
    assert advisors[..i + 1][..i] == advisors[..i];
  }

  /**
   * An advisor that contributes nothing can be taken out of the advisor
   * sequence without changing the chain, the matching context (including
   * hasIntroductions) being held fixed.
   */
  lemma SilentAdvisorRemovable<C, A, I>(advisors: seq<Advisor<C, A>>, i: nat, ctx: Matching<C, A, I>)
    requires i < |advisors| && Contribution(advisors[i], ctx) == []
    ensures AdviceChain(advisors, ctx) == AdviceChain(advisors[..i] + advisors[i + 1..], ctx)
  {
    AdviceChainSplit(advisors, i, ctx);
    AdviceChainAppend(advisors[..i], advisors[i + 1..], ctx);
  }

  /**
   * Taking out an advisor that is not an introduction advisor accepting the
   * class leaves the answer of hasMatchingIntroductions unchanged.
   */
  lemma IntroductionMatchesWithout<C, A>(advisors: seq<Advisor<C, A>>, i: nat, actualClass: C)
    requires i < |advisors|
    requires !(advisors[i].IntroductionAdvisor? && advisors[i].classFilter(actualClass))
    ensures IntroductionMatches(advisors, actualClass) == IntroductionMatches(advisors[..i] + advisors[i + 1..], actualClass)
  {
    var rest := advisors[..i] + advisors[i + 1..];
    if IntroductionMatches(advisors, actualClass) {
      var k :| 0 <= k < |advisors| && advisors[k].IntroductionAdvisor? && advisors[k].classFilter(actualClass);
      var k' := if k < i then k else k - 1;
      assert rest[k'] == advisors[k];
    }
    if IntroductionMatches(rest, actualClass) {
      var k' :| 0 <= k' < |rest| && rest[k'].IntroductionAdvisor? && rest[k'].classFilter(actualClass);
      var k := if k' < i then k' else k' + 1;
      assert rest[k'] == advisors[k];
    }
  }

  /**
   * An advisor that contributes nothing, and is not an introduction advisor
   * accepting the class, can be taken out of the configuration without
   * changing the chain that the factory computes for it.
   */
  lemma SilentAdvisorRemovableFromConfiguration<C, A, I>(
    config: Advised<C, A>, i: nat, targetMethod: JavaMethod<C>, targetClass: Option<C>, registry: Advisor<C, A> -> seq<I>)
    requires i < |config.advisors|
    requires !(config.advisors[i].IntroductionAdvisor? &&
               config.advisors[i].classFilter(ActualClass(targetMethod, targetClass)))
    requires Contribution(config.advisors[i], CallContext(config, targetMethod, targetClass, registry)) == []
    ensures var rest := config.advisors[..i] + config.advisors[i + 1..];
      AdviceChain(config.advisors, CallContext(config, targetMethod, targetClass, registry)) ==
      AdviceChain(rest, CallContext(config.(advisors := rest), targetMethod, targetClass, registry))
  {
    var rest := config.advisors[..i] + config.advisors[i + 1..];
    IntroductionMatchesWithout(config.advisors, i, ActualClass(targetMethod, targetClass));
    assert CallContext(config.(advisors := rest), targetMethod, targetClass, registry)
        == CallContext(config, targetMethod, targetClass, registry);
    SilentAdvisorRemovable(config.advisors, i, CallContext(config, targetMethod, targetClass, registry));
  }

  /**
   * The restriction above is needed: an introduction advisor that accepts the
   * class but has no interceptors contributes nothing itself, yet removing it
   * turns hasIntroductions off and so can silence a later pointcut advisor.
   */
  lemma SilentIntroductionAdvisorNotRemovable()
    ensures var intro: Advisor<int, int> := IntroductionAdvisor(0, c => true);
      var pointcut: Advisor<int, int> := PointcutAdvisor(1, c => true, IntroductionAwareMatcher((m, c, h) => h, false));
      var registry: Advisor<int, int> -> seq<int> := (a: Advisor<int, int>) => if a.PointcutAdvisor? then [7] else [];
      var config := Advised([intro, pointcut], false);
      var ctx := CallContext(config, JavaMethod(0), None, registry);
      && Contribution(intro, ctx) == []
      && AdviceChain(config.advisors, ctx) == [Interceptor(7)]
      && AdviceChain([pointcut], CallContext(config.(advisors := [pointcut]), JavaMethod(0), None, registry)) == []
  {
  }

  /**
   * A pointcut advisor contributes nothing unless pre-filtering or its class
   * filter admits the class, and its method matcher matches.
   */
  lemma PointcutAdvisorNeedsBothMatches<C, A, I>(advisors: seq<Advisor<C, A>>, i: nat, ctx: Matching<C, A, I>)
    requires i < |advisors| && advisors[i].PointcutAdvisor?
    requires !(ctx.preFiltered || advisors[i].classFilter(ctx.actualClass))
          || !StaticMatch(advisors[i].methodMatcher, ctx.targetMethod, ctx.actualClass, ctx.hasIntroductions)
    ensures AdviceChain(advisors, ctx) == AdviceChain(advisors[..i] + advisors[i + 1..], ctx)
  {
    SilentAdvisorRemovable(advisors, i, ctx);
  }

  /**
   * A matched pointcut advisor with a runtime matcher adds each of its
   * interceptors exactly once, in registry order, each wrapped with that matcher.
   */
  lemma RuntimeMatcherWrapsEachInterceptor<C, A, I>(advisors: seq<Advisor<C, A>>, i: nat, ctx: Matching<C, A, I>)
    requires i < |advisors| && advisors[i].PointcutAdvisor? && advisors[i].methodMatcher.isRuntime
    requires ctx.preFiltered || advisors[i].classFilter(ctx.actualClass)
    requires StaticMatch(advisors[i].methodMatcher, ctx.targetMethod, ctx.actualClass, ctx.hasIntroductions)
    ensures var start, xs := |AdviceChain(advisors[..i], ctx)|, ctx.registry(advisors[i]);
      && |AdviceChain(advisors[..i + 1], ctx)| == start + |xs|
      && start + |xs| <= |AdviceChain(advisors, ctx)|
      && forall k :: 0 <= k < |xs| ==>
           AdviceChain(advisors, ctx)[start + k] == InterceptorAndDynamicMethodMatcher(xs[k], advisors[i].methodMatcher)
  {
    AdviceChainSplit(advisors, i, ctx);
    AdviceChainSplit(advisors[..i + 1], i, ctx);
    assert advisors[..i + 1][..i] == advisors[..i];
  }

  /** The entries an advisor adds when they go in as they are: start and length of the block, and each entry. */
  ghost predicate AddsUnwrapped<C, A, I>(advisors: seq<Advisor<C, A>>, i: nat, ctx: Matching<C, A, I>)
    requires i < |advisors|
  {
    var start, xs := |AdviceChain(advisors[..i], ctx)|, ctx.registry(advisors[i]);
    && |AdviceChain(advisors[..i + 1], ctx)| == start + |xs|
    && start + |xs| <= |AdviceChain(advisors, ctx)|
    && forall k :: 0 <= k < |xs| ==> AdviceChain(advisors, ctx)[start + k] == Interceptor(xs[k])
  }

  /** A matched pointcut advisor whose matcher is not runtime adds its interceptors unwrapped and unchanged. */
  lemma StaticMatcherKeepsInterceptors<C, A, I>(advisors: seq<Advisor<C, A>>, i: nat, ctx: Matching<C, A, I>)
    requires i < |advisors| && advisors[i].PointcutAdvisor? && !advisors[i].methodMatcher.isRuntime
    requires ctx.preFiltered || advisors[i].classFilter(ctx.actualClass)
    requires StaticMatch(advisors[i].methodMatcher, ctx.targetMethod, ctx.actualClass, ctx.hasIntroductions)
    ensures AddsUnwrapped(advisors, i, ctx)
  {
    AdviceChainSplit(advisors, i, ctx);
    AdviceChainSplit(advisors[..i + 1], i, ctx);
    assert advisors[..i + 1][..i] == advisors[..i];
  }

  /**
   * An introduction advisor adds all its interceptors when pre-filtering or
   * its class filter admits the class, and nothing otherwise.
   */
  lemma IntroductionAdvisorContributesIffAdmitted<C, A, I>(advisors: seq<Advisor<C, A>>, i: nat, ctx: Matching<C, A, I>)
    requires i < |advisors| && advisors[i].IntroductionAdvisor?
    ensures ctx.preFiltered || advisors[i].classFilter(ctx.actualClass) ==> AddsUnwrapped(advisors, i, ctx)
    ensures !(ctx.preFiltered || advisors[i].classFilter(ctx.actualClass)) ==>
      AdviceChain(advisors, ctx) == AdviceChain(advisors[..i] + advisors[i + 1..], ctx)
  {
    if ctx.preFiltered || advisors[i].classFilter(ctx.actualClass) {
      AdviceChainSplit(advisors, i, ctx);
      AdviceChainSplit(advisors[..i + 1], i, ctx);
      assert advisors[..i + 1][..i] == advisors[..i];
    } else {
      SilentAdvisorRemovable(advisors, i, ctx);
    }
  }

  /** Any other advisor adds all its interceptors, whatever the class and the method. */
  lemma OtherAdvisorAlwaysContributes<C, A, I>(advisors: seq<Advisor<C, A>>, i: nat, ctx: Matching<C, A, I>)
    requires i < |advisors| && advisors[i].OtherAdvisor?
    ensures AddsUnwrapped(advisors, i, ctx)
  {
    AdviceChainSplit(advisors, i, ctx);
    AdviceChainSplit(advisors[..i + 1], i, ctx);
    assert advisors[..i + 1][..i] == advisors[..i];
  }
}

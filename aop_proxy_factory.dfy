/**
 * DefaultAopProxyFactory: the choice between a JDK dynamic proxy and a CGLIB
 * (subclassing) proxy for one AOP configuration. Only the choice is modelled;
 * the proxies themselves carry the configuration they were built from.
 */
module AopProxyFactory {
  import opened Wrappers

  /**
   * The facts about a loaded class that the factory asks of reflection:
   * Class.isInterface(), Proxy.isProxyClass(c) and
   * SpringProxy.class.isAssignableFrom(c).
   */
  datatype JavaClass = JavaClass(
    isInterface: bool,
    isProxyClass: bool,
    isSpringProxy: bool)

  /** The parts of an AdvisedSupport configuration that createAopProxy reads. */
  datatype AdvisedSupport = AdvisedSupport(
    optimize: bool,
    proxyTargetClass: bool,
    proxiedInterfaces: seq<JavaClass>,
    targetClass: Option<JavaClass>)   // None: the target source cannot determine a class

  datatype AopProxy =
    | JdkDynamicAopProxy(config: AdvisedSupport)
    | ObjenesisCglibAopProxy(config: AdvisedSupport)

  datatype AopConfigException = AopConfigException(message: string)

  const NoTargetClassMessage: string :=
    "TargetSource cannot determine target class: " +
    "Either an interface or a target is required for proxy creation."

  /**
   * True when the user named no proxy interface of their own: there are none,
   * or there is exactly one and it is SpringProxy or a sub-interface of it.
   * Two or more interfaces always count as user supplied, even when every one
   * of them is a SpringProxy.
   */
  predicate HasNoUserSuppliedProxyInterfaces(config: AdvisedSupport)
    ensures HasNoUserSuppliedProxyInterfaces(config) <==>
      |config.proxiedInterfaces| <= 1 &&
      forall k :: 0 <= k < |config.proxiedInterfaces| ==> config.proxiedInterfaces[k].isSpringProxy
  {
    var ifcs := config.proxiedInterfaces;
    |ifcs| == 0 || (|ifcs| == 1 && ifcs[0].isSpringProxy)
  }

  /** One of the three settings that ask for a class-based (CGLIB) proxy holds. */
  predicate RequestsClassProxy(config: AdvisedSupport) {
    config.optimize || config.proxyTargetClass || HasNoUserSuppliedProxyInterfaces(config)
  }

  /**
   * createAopProxy: a proxy built from the configuration, or the exception
   * raised when a class-based proxy is asked for but the target class is unknown.
   */
  function CreateAopProxy(config: AdvisedSupport): (r: Result<AopProxy, AopConfigException>)
    // whatever proxy is made, it is made from this configuration
    ensures r.Success? ==> r.value.config == config
    // the exception is raised exactly when a class proxy is requested without a target class
    ensures r.Failure? <==> RequestsClassProxy(config) && config.targetClass.None?
    ensures r.Failure? ==> r.error.message == NoTargetClassMessage
    // CGLIB exactly when requested for a known class that is neither an interface nor a JDK proxy
    ensures (r.Success? && r.value.ObjenesisCglibAopProxy?) <==>
      RequestsClassProxy(config) && config.targetClass.Some? &&
      !config.targetClass.value.isInterface && !config.targetClass.value.isProxyClass
  {
    if RequestsClassProxy(config) then
      match config.targetClass
      case None => Failure(AopConfigException(NoTargetClassMessage))
      case Some(targetClass) =>
        if targetClass.isInterface || targetClass.isProxyClass then
          Success(JdkDynamicAopProxy(config))
        else
          Success(ObjenesisCglibAopProxy(config))
    else
      Success(JdkDynamicAopProxy(config))
  }

  /** Without optimize, proxyTargetClass or a bare interface list, the proxy is a JDK proxy, whatever the target. */
  lemma JdkProxyUnlessClassProxyRequested(config: AdvisedSupport)
    requires !RequestsClassProxy(config)
    ensures CreateAopProxy(config) == Success(JdkDynamicAopProxy(config))
  {
  }

  /** An interface, or a class that is already a JDK proxy, is always proxied by the JDK mechanism. */
  lemma InterfaceTargetGetsJdkProxy(config: AdvisedSupport)
    requires config.targetClass.Some?
    requires config.targetClass.value.isInterface || config.targetClass.value.isProxyClass
    ensures CreateAopProxy(config) == Success(JdkDynamicAopProxy(config))
  {
  }

  /**
   * Naming one interface of one's own that is not a SpringProxy, with neither
   * optimize nor proxyTargetClass set, selects a JDK proxy; so does naming two
   * or more interfaces of any kind.
   */
  lemma UserInterfaceSelectsJdkProxy(config: AdvisedSupport, k: nat)
    requires !config.optimize && !config.proxyTargetClass
    requires k < |config.proxiedInterfaces|
    requires !config.proxiedInterfaces[k].isSpringProxy || |config.proxiedInterfaces| >= 2
    ensures CreateAopProxy(config) == Success(JdkDynamicAopProxy(config))
  {
  }
}

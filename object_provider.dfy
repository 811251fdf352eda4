/**
 * The default methods of ObjectProvider, layered over its two abstract
 * lookups getIfAvailable() and getIfUnique(). A provider is given by what
 * those two lookups return: an instance, null, or a BeansException.
 * Each lookup is one fixed outcome of one call.
 */
module ObjectProviders {
  import opened Wrappers

  /**
   * The exceptions that the provider's methods let escape: a lookup's
   * BeansException, the default streams' UnsupportedOperationException, and
   * any other exception a default supplier throws.
   */
  datatype ProviderError =
    | BeansException(message: string)
    | UnsupportedOperationException(message: string)
    | OtherException(exceptionClass: string, message: string)

  /** An abstract lookup throws only a BeansException. */
  type LookupError = e: ProviderError | e.BeansException? witness BeansException("")

  const MultiElementMessage: string := "Multi element access not supported"
  const OrderedElementMessage: string := "Ordered element access not supported"

  /** What one abstract lookup returns: an instance (Some), null (None), or throws. */
  type Lookup<T> = Result<Option<T>, LookupError>

  datatype ObjectProvider<T> = ObjectProvider(available: Lookup<T>, unique: Lookup<T>) {

    /**
     * getIfAvailable(defaultSupplier). `defaultSupplier` is what calling the
     * supplier would produce; it is used only when no instance is available.
     */
    function GetIfAvailable(defaultSupplier: Result<T, ProviderError>): (r: Result<T, ProviderError>)
      ensures available.Success? && available.value.Some? ==> r == Success(available.value.value)
      ensures available == Success(None) ==> r == defaultSupplier
      ensures available.Failure? ==> r == Failure(available.error)
    {
      OrDefault(available, defaultSupplier)
    }

    /**
     * ifAvailable(consumer): the values handed to the consumer, in call order.
     * The consumer sees the instance exactly once when there is one, and is
     * never called otherwise.
     */
    function IfAvailable(): (r: Result<seq<T>, ProviderError>)
      ensures r.Success? ==> |r.value| <= 1
      ensures r.Success? && |r.value| == 1 <==> available.Success? && available.value.Some?
      ensures available.Success? && available.value.Some? ==> r.value[0] == available.value.value
      ensures r.Failure? <==> available.Failure?
      ensures available.Failure? ==> r == Failure(available.error)
    {
      Consumed(available)
    }

    /** getIfUnique(defaultSupplier): as GetIfAvailable, over the unique-candidate lookup. */
    function GetIfUnique(defaultSupplier: Result<T, ProviderError>): (r: Result<T, ProviderError>)
      ensures unique.Success? && unique.value.Some? ==> r == Success(unique.value.value)
      ensures unique == Success(None) ==> r == defaultSupplier
      ensures unique.Failure? ==> r == Failure(unique.error)
    {
      OrDefault(unique, defaultSupplier)
    }

    /** ifUnique(consumer): the consumer runs once, with the instance, exactly when a unique one exists. */
    function IfUnique(): (r: Result<seq<T>, ProviderError>)
      ensures r.Success? ==> |r.value| <= 1
      ensures r.Success? && |r.value| == 1 <==> unique.Success? && unique.value.Some?
      ensures unique.Success? && unique.value.Some? ==> r.value[0] == unique.value.value
      ensures r.Failure? <==> unique.Failure?
      ensures unique.Failure? ==> r == Failure(unique.error)
    {
      Consumed(unique)
    }

    /** The default stream(): multi-element access is not supported. */
    function Stream(): (r: Result<seq<T>, ProviderError>)
      ensures r.Failure? && r.error == UnsupportedOperationException(MultiElementMessage)
    {
      Failure(UnsupportedOperationException(MultiElementMessage))
    }

    /** The default orderedStream(): ordered access is not supported. */
    function OrderedStream(): (r: Result<seq<T>, ProviderError>)
      ensures r.Failure? && r.error == UnsupportedOperationException(OrderedElementMessage)
    {
      Failure(UnsupportedOperationException(OrderedElementMessage))
    }

    /**
     * iterator(): the elements of stream(), in stream order; with the default
     * stream() it fails with stream()'s exception.
     */
    function Iterator(): (r: Result<seq<T>, ProviderError>)
      ensures r == Stream()
      ensures r.Failure? && r.error == UnsupportedOperationException(MultiElementMessage)
    {
      Stream()
    }
  }

  /** The value of a lookup, or the supplier's outcome when the lookup returned null. */
  function OrDefault<T>(lookup: Lookup<T>, defaultSupplier: Result<T, ProviderError>): Result<T, ProviderError> {
    match lookup
    case Failure(e) => Failure(e)
    case Success(Some(dependency)) => Success(dependency)
    case Success(None) => defaultSupplier
  }

  /** The calls a consumer receives when it is handed the value of a lookup if that is not null. */
  function Consumed<T>(lookup: Lookup<T>): Result<seq<T>, ProviderError> {
    match lookup
    case Failure(e) => Failure(e)
    case Success(Some(dependency)) => Success([dependency])
    case Success(None) => Success([])
  }

  /**
   * The supplier is consulted only when no instance is available: if two
   * suppliers give different answers, the lookup returned null.
   */
  lemma SupplierOnlyWhenUnavailable<T>(p: ObjectProvider<T>, s1: Result<T, ProviderError>, s2: Result<T, ProviderError>)
    requires p.GetIfAvailable(s1) != p.GetIfAvailable(s2)
    ensures p.available == Success(None)
    ensures p.GetIfAvailable(s1) == s1 && p.GetIfAvailable(s2) == s2
  {
  }

  /**
   * ifAvailable hands the consumer x exactly when getIfAvailable(supplier)
   * returns x whatever the supplier would have produced.
   */
  lemma IfAvailableAgreesWithGetIfAvailable<T>(p: ObjectProvider<T>, x: T)
    ensures p.IfAvailable() == Success([x]) <==>
      forall s: Result<T, ProviderError> :: p.GetIfAvailable(s) == Success(x)
  {
    if forall s: Result<T, ProviderError> :: p.GetIfAvailable(s) == Success(x) {
      var failing: Result<T, ProviderError> := Failure(BeansException(""));
      assert p.GetIfAvailable(failing) == Success(x);
    }
  }

  /** The same agreement between ifUnique and getIfUnique(supplier). */
  lemma IfUniqueAgreesWithGetIfUnique<T>(p: ObjectProvider<T>, x: T)
    ensures p.IfUnique() == Success([x]) <==>
      forall s: Result<T, ProviderError> :: p.GetIfUnique(s) == Success(x)
  {
    if forall s: Result<T, ProviderError> :: p.GetIfUnique(s) == Success(x) {
      var failing: Result<T, ProviderError> := Failure(BeansException(""));
      assert p.GetIfUnique(failing) == Success(x);
    }
  }
}

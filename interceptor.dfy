/**
 * UnifiedContextInterceptor: on the request thread, preHandle fills the five accessors
 * from the inbound request and the platform holders and seeds CustomContext;
 * afterCompletion clears the header and MDC accessors only.
 */
module UnifiedContextInterceptor {
  import opened Wrappers
  import opened Platform
  import opened ContextParam
  import opened DetachedRequest
  import opened ThreadState
  import opened Accessors
  import CustomContext

  /** The two parameters every new request is seeded with. */
  const DefaultTraffic: CustomMap := map[X_TRAFFIC_COLOR := Str("blue"), X_TRAFFIC_TYPE := Str("live")]

  /**
   * The seeding block of preHandle on a thread whose CustomContext is not initialised:
   * init, putObject of the traffic colour and type, then the dt-context accessor set
   * to a copy of the holder.
   */
  function SeedSpec(s: Locals, requestId: string, correlationId: string): (r: Locals)
    requires !CustomContext.IsInitialized(s)
    ensures CustomContext.IsInitialized(r) && r.customHolder == Some(DefaultTraffic)
    ensures r.customSlot == Some(DefaultTraffic)
    ensures MdcGet(r.mdc, ParamKey(REQUEST_ID)) == Some(requestId)
    ensures MdcGet(r.mdc, ParamKey(CORRELATION_ID)) == Some(correlationId)
    ensures forall k :: k != ParamKey(REQUEST_ID) && k != ParamKey(CORRELATION_ID) ==> MdcGet(r.mdc, k) == MdcGet(s.mdc, k)
    ensures r == s.(customHolder := r.customHolder, customSlot := r.customSlot, mdc := r.mdc)
  {
    var initialised := CustomContext.InitSpec(s, requestId, correlationId).value;
    var withColor := CustomContext.PutObjectSpec(initialised, Some(X_TRAFFIC_COLOR), Str("blue")).value;
    var withType := CustomContext.PutObjectSpec(withColor, Some(X_TRAFFIC_TYPE), Str("live")).value;
    SetState(CustomContextAccessor, Some(CustomValues(CustomContext.GetCopyOfContextHolderMap(withType))), withType)
  }

  /** What the request-attributes accessor is given: the detached copy for servlet attributes, the attributes themselves otherwise. */
  function StoredAttributes(ambient: RequestAttributes, detached: RequestAttributes): RequestAttributes {
    if IsServletRequestAttributes(ambient) then detached else ambient
  }

  /** The request-attributes block of preHandle, given RequestContextHolder's value. */
  function StoreRequestStep(s: Locals, ambient: Option<RequestAttributes>, detached: RequestAttributes): Locals {
    if ambient.Some? then SetState(RequestAttributesAccessor, Some(Attributes(StoredAttributes(ambient.value, detached))), s)
    else s
  }

  /** The locale block of preHandle, given LocaleContextHolder's value. */
  function StoreLocaleStep(s: Locals, ambient: Option<LocaleContext>): Locals {
    if ambient.Some? then SetState(LocaleContextAccessor, Some(Locale(ambient.value)), s) else s
  }

  /** The MDC block of preHandle, given the MDC's copy. */
  function StoreMdcStep(s: Locals, ambient: MdcMap): Locals {
    if ambient.Some? then SetState(MdcAccessor, Some(StringMap(ambient.value)), s) else s
  }

  /** The CustomContext block of preHandle. */
  function SeedStep(s: Locals, requestId: string, correlationId: string): Locals {
    if CustomContext.IsInitialized(s) then s else SeedSpec(s, requestId, correlationId)
  }

  /**
   * preHandle: the thread's storage afterwards and what it returns or throws, given the
   * request's header map and the detached copy it builds from servlet attributes.
   * Reading RequestContextHolder directly, it throws whatever that holder throws.
   */
  function PreHandleSpec(s: Locals, headers: map<string, string>, detached: RequestAttributes,
                         requestId: string, correlationId: string): (r: (Locals, Result<bool, ContextError>))
    ensures r.1.Failure? <==> s.requestHolderFault.Some?
    ensures r.1.Success? ==> r.1.value
    ensures r.0.headerSlot == Some(headers)
  {
    var withHeaders := SetState(HeaderContextAccessor, Some(StringMap(headers)), s);
    match s.requestHolderFault
    case Some(fault) => (withHeaders, Failure(if fault == IllegalStateFault then IllegalState else HolderFailure))
    case None =>
      var withRequest := StoreRequestStep(withHeaders, s.requestHolder, detached);
      var withMdc := StoreMdcStep(StoreLocaleStep(withRequest, s.localeHolder), s.mdc);
      (SeedStep(withMdc, requestId, correlationId), Success(true))
  }

  /** afterCompletion: clears the header accessor, then the MDC accessor. */
  function AfterCompletionSpec(s: Locals): (r: Locals)
    ensures r.headerSlot.None? && r.mdcSlot.None? && r.mdc.None?
    ensures r == s.(headerSlot := None, mdcSlot := None, mdc := None)
  {
    ClearState(MdcAccessor, ClearState(HeaderContextAccessor, s))
  }

  // ---- what preHandle promises ----

  /** preHandle returns true whenever it returns; it throws exactly when RequestContextHolder does. */
  lemma PreHandleReturnsTrue(s: Locals, headers: map<string, string>, detached: RequestAttributes, id1: string, id2: string)
    ensures PreHandleSpec(s, headers, detached, id1, id2).1.Failure? <==> s.requestHolderFault.Some?
    ensures PreHandleSpec(s, headers, detached, id1, id2).1.Success? ==> PreHandleSpec(s, headers, detached, id1, id2).1.value
  {
  }

  /** The header accessor holds the request's header map afterwards, even when preHandle throws. */
  lemma PreHandleStoresHeaders(s: Locals, headers: map<string, string>, detached: RequestAttributes, id1: string, id2: string)
    ensures Get(HeaderContextAccessor, PreHandleSpec(s, headers, detached, id1, id2).0) == Success(Some(StringMap(headers)))
  {
  }

  /**
   * Which request attributes are stored: the detached copy for servlet attributes,
   * other attributes as they are, nothing new when RequestContextHolder is empty.
   */
  lemma PreHandleStoresRequestAttributes(s: Locals, headers: map<string, string>, detached: RequestAttributes, id1: string, id2: string)
    requires s.requestHolderFault.None?
    ensures var r := PreHandleSpec(s, headers, detached, id1, id2).0;
      (s.requestHolder.Some? && IsServletRequestAttributes(s.requestHolder.value) ==> r.requestSlot == Some(detached)) &&
      (s.requestHolder.Some? && !IsServletRequestAttributes(s.requestHolder.value) ==> r.requestSlot == s.requestHolder) &&
      (s.requestHolder.None? ==> r.requestSlot == s.requestSlot)
  {
  }

  /**
   * The locale and MDC accessors are set only from non-null ambient values, and the
   * MDC accessor keeps the MDC as it was before CustomContext.init added its identifiers.
   */
  lemma PreHandleStoresLocaleAndMdc(s: Locals, headers: map<string, string>, detached: RequestAttributes, id1: string, id2: string)
    requires s.requestHolderFault.None?
    ensures var r := PreHandleSpec(s, headers, detached, id1, id2).0;
      r.localeSlot == (if s.localeHolder.Some? then s.localeHolder else s.localeSlot) &&
      r.mdcSlot == (if s.mdc.Some? then s.mdc else s.mdcSlot)
  {
  }

  /**
   * On a thread without CustomContext, preHandle initialises it with the two traffic
   * defaults, both readable with getObject, and mirrors them into the dt-context accessor;
   * an initialised CustomContext and the dt-context accessor are left as they were.
   */
  lemma PreHandleSeedsCustomContext(s: Locals, headers: map<string, string>, detached: RequestAttributes, id1: string, id2: string)
    requires s.requestHolderFault.None?
    ensures var r := PreHandleSpec(s, headers, detached, id1, id2).0;
      (!CustomContext.IsInitialized(s) ==>
         CustomContext.GetObject(r, X_TRAFFIC_COLOR) == Success(Str("blue")) &&
         CustomContext.GetObject(r, X_TRAFFIC_TYPE) == Success(Str("live")) &&
         CustomContext.Get(r, REQUEST_ID) == Success(Some(id1)) &&
         Get(CustomContextAccessor, r) == Success(Some(CustomValues(DefaultTraffic)))) &&
      (CustomContext.IsInitialized(s) ==> r.customHolder == s.customHolder && r.customSlot == s.customSlot)
  {
  }

  /** afterCompletion empties the header and MDC accessors and the MDC, and nothing else. */
  lemma AfterCompletionClearsOnlyTwo(s: Locals)
    ensures Get(HeaderContextAccessor, AfterCompletionSpec(s)) == Success(None)
    ensures Get(MdcAccessor, AfterCompletionSpec(s)) == Success(None)
    ensures forall a :: a != HeaderContextAccessor && a != MdcAccessor ==> Slot(a, AfterCompletionSpec(s)) == Slot(a, s)
    ensures AfterCompletionSpec(s).customHolder == s.customHolder
    ensures AfterCompletionSpec(s).localeHolder == s.localeHolder
    ensures AfterCompletionSpec(s).requestHolder == s.requestHolder
  {
  }

  /**
   * CustomContext outlives the request: a second request served on the same thread
   * after afterCompletion skips the seeding block, so it gets no new request or
   * correlation identifier and keeps the first request's custom values.
   */
  lemma NextRequestReusesCustomContext(s: Locals, h1: map<string, string>, h2: map<string, string>,
                                       d1: RequestAttributes, d2: RequestAttributes, id1: string, id2: string, id3: string, id4: string)
    requires s.requestHolderFault.None?
    ensures var first := AfterCompletionSpec(PreHandleSpec(s, h1, d1, id1, id2).0);
            var second := PreHandleSpec(first, h2, d2, id3, id4).0;
      CustomContext.IsInitialized(second) && second.customHolder == first.customHolder &&
      second.customSlot == first.customSlot &&
      MdcGet(second.mdc, ParamKey(REQUEST_ID)) == None
  {
    var first := AfterCompletionSpec(PreHandleSpec(s, h1, d1, id1, id2).0);
    PreHandleSeedsCustomContext(s, h1, d1, id1, id2);
    assert CustomContext.IsInitialized(first);
    PreHandleSeedsCustomContext(first, h2, d2, id3, id4);
    PreHandleStoresLocaleAndMdc(first, h2, d2, id3, id4);
  }

  // ---- the interceptor's methods ----

  /** preHandle, given the request's header map (each name with its first value). */
  method PreHandle(th: ThreadLocals, headers: map<string, string>, requestId: string, correlationId: string)
    returns (r: Result<bool, ContextError>)
    modifies th
    ensures (th.View(), r) == PreHandleSpec(old(th.View()), headers, th.requestSlot.GetOr(NonServlet(0)), requestId, correlationId)
    ensures r.Success? && old(th.requestHolder).Some? && IsServletRequestAttributes(old(th.requestHolder).value) ==>
              th.requestSlot.Some? && th.requestSlot.value.Detached? && fresh(th.requestSlot.value.detached) &&
              th.requestSlot.value.detached.attributeMap == old(CopiedAttributes(th.requestHolder.value)) &&
              th.requestSlot.value.detached.sessionId == old(SessionIdOf(th.requestHolder.value)) &&
              th.requestSlot.value.detached.request == NewMinimalRequest(Some(headers))
  {
    var o := SetValue(HeaderContextAccessor, th, Some(StringMap(headers)));
    match th.requestHolderFault
    case Some(fault) =>
      return Failure(if fault == IllegalStateFault then IllegalState else HolderFailure);
    case None =>
    StoreRequestAttributes(th, headers);
    ghost var stored := th.requestSlot;
    StoreLocaleAndMdc(th);
    SeedCustomContext(th, requestId, correlationId);
    assert th.requestSlot == stored;
    r := Success(true);
  }

  /** The request-attributes block of preHandle: a detached copy of servlet attributes, other attributes as they are. */
  method StoreRequestAttributes(th: ThreadLocals, headers: map<string, string>)
    modifies th
    ensures th.View() == StoreRequestStep(old(th.View()), old(th.requestHolder), th.requestSlot.GetOr(NonServlet(0)))
    ensures old(th.requestHolder).Some? && IsServletRequestAttributes(old(th.requestHolder).value) ==>
              th.requestSlot.Some? && th.requestSlot.value.Detached? && fresh(th.requestSlot.value.detached) &&
              th.requestSlot.value.detached.attributeMap == old(CopiedAttributes(th.requestHolder.value)) &&
              th.requestSlot.value.detached.sessionId == old(SessionIdOf(th.requestHolder.value)) &&
              th.requestSlot.value.detached.request == NewMinimalRequest(Some(headers))
  {
    var requestAttributes := th.requestHolder;
    if requestAttributes.Some? && IsServletRequestAttributes(requestAttributes.value) {
      var detached := new DetachedRequestAttributes(requestAttributes.value, Some(headers));
      var o := SetValue(RequestAttributesAccessor, th, Some(Attributes(Detached(detached))));
    } else if requestAttributes.Some? {
      var o := SetValue(RequestAttributesAccessor, th, Some(Attributes(requestAttributes.value)));
    }
  }

  /** The locale and MDC blocks of preHandle. */
  method StoreLocaleAndMdc(th: ThreadLocals)
    modifies th
    ensures th.View() == StoreMdcStep(StoreLocaleStep(old(th.View()), old(th.localeHolder)), old(th.mdc))
  {
    var localeContext := th.localeHolder;
    if localeContext.Some? {
      var o := SetValue(LocaleContextAccessor, th, Some(Locale(localeContext.value)));
    }
    var mdcContext := th.mdc;
    if mdcContext.Some? {
      var o := SetValue(MdcAccessor, th, Some(StringMap(mdcContext.value)));
    }
  }

  /** The CustomContext block of preHandle. */
  method SeedCustomContext(th: ThreadLocals, requestId: string, correlationId: string)
    modifies th
    ensures th.View() == SeedStep(old(th.View()), requestId, correlationId)
  {
    if !CustomContext.IsInitialized(th.View()) {
      var o := CustomContext.Init(th, requestId, correlationId);
      o := CustomContext.PutObject(th, Some(X_TRAFFIC_COLOR), Str("blue"));
      o := CustomContext.PutObject(th, Some(X_TRAFFIC_TYPE), Str("live"));
      o := SetValue(CustomContextAccessor, th, Some(CustomValues(CustomContext.GetCopyOfContextHolderMap(th.View()))));
    }
  }

  /** afterCompletion */
  method AfterCompletion(th: ThreadLocals)
    modifies th
    ensures th.View() == AfterCompletionSpec(old(th.View()))
  {
    Clear(HeaderContextAccessor, th);
    Clear(MdcAccessor, th);
  }
}

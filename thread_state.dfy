/**
 * The thread-local storage of one thread: the five accessor slots and the ambient
 * platform holders they fall back on or write through to. A second thread is a
 * second ThreadLocals object.
 */
module ThreadState {
  import opened Wrappers
  import opened Platform
  import opened ContextParam
  import opened DetachedRequest

  /** The custom context's holder map, Map<CustomContextParam, Object>. */
  type CustomMap = map<ContextParamDefault, Obj>

  /** A value an accessor hands out or accepts, tagged by its Java type. */
  datatype CtxValue =
    | StringMap(m: map<string, string>)     // Map<String, String>: headers and MDC
    | Locale(lc: LocaleContext)             // LocaleContext
    | Attributes(ra: RequestAttributes)     // RequestAttributes
    | CustomValues(cm: CustomMap)           // Map<CustomContextParam, Object>

  /** The value of one thread's storage. */
  datatype Locals = Locals(
    headerSlot: Option<map<string, string>>,      // HeaderContextAccessor.headersHolder
    mdcSlot: Option<map<string, string>>,         // MdcAccessor.mdcContextHolder
    localeSlot: Option<LocaleContext>,            // LocaleContextAccessor.localeContextHolder
    requestSlot: Option<RequestAttributes>,       // RequestAttributesAccessor.requestAttributesHolder
    customSlot: Option<CustomMap>,                // CustomContextAccessor.contextHolder
    mdc: MdcMap,                                  // SLF4J MDC
    localeHolder: Option<LocaleContext>,          // LocaleContextHolder
    requestHolder: Option<RequestAttributes>,     // RequestContextHolder
    requestHolderFault: Option<HolderFault>,      // how RequestContextHolder throws, if it does
    customHolder: Option<CustomMap>)              // CustomContext.contextHolder

  /** One thread's storage, updated in place by the core. */
  class ThreadLocals {
    var headerSlot: Option<map<string, string>>
    var mdcSlot: Option<map<string, string>>
    var localeSlot: Option<LocaleContext>
    var requestSlot: Option<RequestAttributes>
    var customSlot: Option<CustomMap>
    var mdc: MdcMap
    var localeHolder: Option<LocaleContext>
    var requestHolder: Option<RequestAttributes>
    var requestHolderFault: Option<HolderFault>
    var customHolder: Option<CustomMap>

    /** The current contents of this thread's storage. */
    function View(): Locals
      reads this
    {
      Locals(headerSlot, mdcSlot, localeSlot, requestSlot, customSlot,
             mdc, localeHolder, requestHolder, requestHolderFault, customHolder)
    }

    /** A thread whose storage starts out as `s`. */
    constructor (s: Locals)
      ensures View() == s
    {
      headerSlot, mdcSlot, localeSlot, requestSlot, customSlot :=
        s.headerSlot, s.mdcSlot, s.localeSlot, s.requestSlot, s.customSlot;
      mdc, localeHolder, requestHolder, requestHolderFault, customHolder :=
        s.mdc, s.localeHolder, s.requestHolder, s.requestHolderFault, s.customHolder;
    }

    /** Overwrites all of this thread's storage; used for code outside the core (a submitted task). */
    method Assign(s: Locals)
      modifies this
      ensures View() == s
    {
      headerSlot, mdcSlot, localeSlot, requestSlot, customSlot :=
        s.headerSlot, s.mdcSlot, s.localeSlot, s.requestSlot, s.customSlot;
      mdc, localeHolder, requestHolder, requestHolderFault, customHolder :=
        s.mdc, s.localeHolder, s.requestHolder, s.requestHolderFault, s.customHolder;
    }
  }

  /**
   * A method that throws leaves the thread as it was; one that completes leaves the
   * state its specification computes.
   */
  predicate Committed(r: Result<Locals, ContextError>, o: Outcome<ContextError>, before: Locals, after: Locals) {
    match r
    case Success(s) => o == Pass && after == s
    case Failure(e) => o == Fail(e) && after == before
  }
}

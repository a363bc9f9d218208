/**
 * ContextRestorationService: re-applies the accessor-held custom context, MDC,
 * request attributes and locale onto the current thread's platform holders, and
 * turns the captured inbound headers into an HttpHeaders collection.
 */
module ContextRestoration {
  import opened Wrappers
  import opened Platform
  import opened ThreadState
  import opened Accessors
  import PropagationManager
  import CustomContext

  /** Spring's HttpHeaders: header name to its list of values. */
  type HttpHeaders = map<string, seq<string>>

  /** HttpHeaders.add: appends a value to the name's list. */
  function AddHeader(h: HttpHeaders, name: string, value: string): (r: HttpHeaders)
    ensures r.Keys == h.Keys + {name}
    ensures r[name] == (if name in h then h[name] else []) + [value]
    ensures forall k :: k in h && k != name ==> r[k] == h[k]
  {
    h[name := (if name in h then h[name] else []) + [value]]
  }

  /** The collection getHttpHeaders builds from the header accessor's value: one single-valued entry per header. */
  function HeaderEntries(s: Locals): (h: HttpHeaders)
    ensures s.headerSlot.None? ==> h == map[]
    ensures s.headerSlot.Some? ==> h.Keys == s.headerSlot.value.Keys
    ensures forall k :: k in h ==> s.headerSlot.Some? && h[k] == [s.headerSlot.value[k]]
  {
    if s.headerSlot.None? then map[] else map k | k in s.headerSlot.value :: [s.headerSlot.value[k]]
  }

  /** restoreCustomContext: installs the accessor's map only when CustomContext is not initialised. */
  function RestoreCustomStep(s: Locals): (r: Locals)
    ensures CustomContext.IsInitialized(r)
    ensures CustomContext.IsInitialized(s) ==> r == s
    ensures !CustomContext.IsInitialized(s) ==>
              r == CustomContext.SetContextHolderMapSpec(s, Get(CustomContextAccessor, s).value.value.cm)
  {
    var customContext := Get(CustomContextAccessor, s);
    if !CustomContext.IsInitialized(s) && customContext.Success? && customContext.value.Some? then
      CustomContext.SetContextHolderMapSpec(s, customContext.value.value.cm)
    else s
  }

  /** restoreMDCContext: replaces the MDC with the accessor's non-null value. */
  function RestoreMdcStep(s: Locals): (r: Locals)
    ensures Get(MdcAccessor, s) == Success(None) ==> r == s
    ensures Get(MdcAccessor, s).value.Some? ==> r == s.(mdc := Some(Get(MdcAccessor, s).value.value.m))
  {
    match Get(MdcAccessor, s)
    case Success(Some(StringMap(m))) => s.(mdc := Some(m))
    case _ => s
  }

  /** restoreRequestAttributes: pushes a non-null value into RequestContextHolder, swallowing its failure; getValue's own exception escapes. */
  function RestoreRequestStep(s: Locals): (r: Result<Locals, ContextError>)
    ensures r.Failure? <==> Get(RequestAttributesAccessor, s).Failure?
    ensures Get(RequestAttributesAccessor, s) == Success(None) ==> r == Success(s)
    ensures Get(RequestAttributesAccessor, s).Success? && Get(RequestAttributesAccessor, s).value.Some? ==>
              r == Success(if s.requestHolderFault.None?
                           then s.(requestHolder := Some(Get(RequestAttributesAccessor, s).value.value.ra))
                           else s)
  {
    match Get(RequestAttributesAccessor, s)
    case Failure(e) => Failure(e)
    case Success(Some(Attributes(ra))) =>
      if s.requestHolderFault.None? then Success(s.(requestHolder := Some(ra)))
      else Success(s)   // RequestContextHolder threw; logged
    case Success(_) => Success(s)
  }

  /** restoreLocaleContext: pushes a non-null value into LocaleContextHolder. */
  function RestoreLocaleStep(s: Locals): (r: Locals)
    ensures Get(LocaleContextAccessor, s) == Success(None) ==> r == s
    ensures Get(LocaleContextAccessor, s).value.Some? ==>
              r == s.(localeHolder := Some(Get(LocaleContextAccessor, s).value.value.lc))
  {
    match Get(LocaleContextAccessor, s)
    case Success(Some(Locale(lc))) => s.(localeHolder := Some(lc))
    case _ => s
  }

  /** restoreAllContexts: the four steps in order custom, MDC, request attributes, locale. */
  function RestoreAllSpec(s: Locals): (r: (Locals, Outcome<ContextError>))
    ensures r.1 != Pass ==> r.1 == Fail(HolderFailure)
    ensures r.1 == Pass ==> Get(RequestAttributesAccessor, s).Success?
  {
    var afterMdc := RestoreMdcStep(RestoreCustomStep(s));
    match RestoreRequestStep(afterMdc)
    case Failure(e) => (afterMdc, Fail(e))
    case Success(afterRequest) => (RestoreLocaleStep(afterRequest), Pass)
  }

  /**
   * After restoreAllContexts CustomContext is initialised, even when a later step throws,
   * because the custom accessor's getValue is never null; no accessor slot changes.
   */
  lemma RestoreAllInitialises(s: Locals)
    ensures CustomContext.IsInitialized(RestoreAllSpec(s).0)
    ensures forall a :: Slot(a, RestoreAllSpec(s).0) == Slot(a, s)
    ensures RestoreAllSpec(s).1.Fail? <==> Get(RequestAttributesAccessor, s).Failure?
  {
  }

  /**
   * Headers sent by the client reach a pooled task: with headers {x-traffic-color: blue}
   * captured on the request thread, restoreAllContextsAndGetHeaders inside the task
   * returns x-traffic-color: [blue].
   */
  lemma HeadersReachTask(accs: seq<Accessor>, submitter: Locals, worker: Locals)
    requires HeaderContextAccessor in accs
    requires submitter.headerSlot == Some(map["x-traffic-color" := "blue"])
    requires worker.requestHolderFault.None?
    ensures var inTask := PropagationManager.RestoreSpec(accs, PropagationManager.CaptureSpec(accs, submitter), worker);
      RestoreAllSpec(inTask).1 == Pass && HeaderEntries(RestoreAllSpec(inTask).0) == map["x-traffic-color" := ["blue"]]
  {
    var snap := PropagationManager.CaptureSpec(accs, submitter);
    var inTask := PropagationManager.RestoreSpec(accs, snap, worker);
    PropagationManager.CaptureIsExact(accs, submitter);
    PropagationManager.RestoreInstalls(accs, snap, worker, HeaderContextAccessor);
    RestoreAllInitialises(inTask);
    assert Slot(HeaderContextAccessor, RestoreAllSpec(inTask).0) == Slot(HeaderContextAccessor, submitter);
  }

  // ---- the service's methods ----

  method RestoreCustomContext(th: ThreadLocals)
    modifies th
    ensures th.View() == RestoreCustomStep(old(th.View()))
  {
    var customContext := Get(CustomContextAccessor, th.View());
    if !CustomContext.IsInitialized(th.View()) && customContext.Success? && customContext.value.Some? {
      CustomContext.SetContextHolderMap(th, customContext.value.value.cm);
    }
  }

  method RestoreMdcContext(th: ThreadLocals)
    modifies th
    ensures th.View() == RestoreMdcStep(old(th.View()))
  {
    var mdcContext := Get(MdcAccessor, th.View());
    if mdcContext.Success? && mdcContext.value.Some? {
      th.mdc := Some(mdcContext.value.value.m);   // MDC.setContextMap
    }
  }

  method RestoreRequestAttributes(th: ThreadLocals) returns (o: Outcome<ContextError>)
    modifies th
    ensures Committed(RestoreRequestStep(old(th.View())), o, old(th.View()), th.View())
  {
    var requestAttributes := Get(RequestAttributesAccessor, th.View());
    if requestAttributes.Failure? {
      return Fail(requestAttributes.error);
    }
    o := Pass;
    if requestAttributes.value.Some? && th.requestHolderFault.None? {
      th.requestHolder := Some(requestAttributes.value.value.ra);
    }
  }

  method RestoreLocaleContext(th: ThreadLocals)
    modifies th
    ensures th.View() == RestoreLocaleStep(old(th.View()))
  {
    var localeContext := Get(LocaleContextAccessor, th.View());
    if localeContext.Success? && localeContext.value.Some? {
      th.localeHolder := Some(localeContext.value.value.lc);
    }
  }

  /** restoreAllContexts */
  method RestoreAllContexts(th: ThreadLocals) returns (o: Outcome<ContextError>)
    modifies th
    ensures (th.View(), o) == RestoreAllSpec(old(th.View()))
  {
    RestoreCustomContext(th);
    RestoreMdcContext(th);
    o := RestoreRequestAttributes(th);
    if o.Fail? {
      return;
    }
    RestoreLocaleContext(th);
  }

  /** getHttpHeaders: adds every captured header to a new collection; changes nothing. */
  method GetHttpHeaders(th: ThreadLocals) returns (h: HttpHeaders)
    ensures h == HeaderEntries(th.View())
    ensures th.headerSlot.None? ==> h == map[]
    ensures th.headerSlot.Some? ==> h.Keys == th.headerSlot.value.Keys
    ensures forall k :: k in h ==> h[k] == [th.headerSlot.value[k]]
  {
    var headers := Get(HeaderContextAccessor, th.View());
    h := map[];
    if headers.Success? && headers.value.Some? {
      var m := headers.value.value.m;
      var remaining := m.Keys;
      while remaining != {}
        invariant remaining <= m.Keys
        invariant h.Keys == m.Keys - remaining
        invariant forall k :: k in h ==> h[k] == [m[k]]
        decreases remaining
      {
        var name :| name in remaining;
        h := AddHeader(h, name, m[name]);
        remaining := remaining - {name};
      }
    }
  }

  /** restoreAllContextsAndGetHeaders: the same four steps, then getHttpHeaders. */
  method RestoreAllContextsAndGetHeaders(th: ThreadLocals) returns (r: Result<HttpHeaders, ContextError>)
    modifies th
    ensures th.View() == RestoreAllSpec(old(th.View())).0
    ensures RestoreAllSpec(old(th.View())).1.Fail? ==> r == Failure(RestoreAllSpec(old(th.View())).1.error)
    ensures RestoreAllSpec(old(th.View())).1 == Pass ==> r == Success(HeaderEntries(old(th.View())))
  {
    RestoreCustomContext(th);
    RestoreMdcContext(th);
    var o := RestoreRequestAttributes(th);
    if o.Fail? {
      return Failure(o.error);
    }
    RestoreLocaleContext(th);
    var headers := GetHttpHeaders(th);
    r := Success(headers);
    assert th.headerSlot == old(th.headerSlot);
  }
}

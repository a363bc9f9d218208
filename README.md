# Thread-context propagation across a worker pool

This project models, in Dafny, the context-propagation core of a Spring MCP server
(and a small piece of its client). Request-scoped state lives in thread-local storage:
- the inbound headers;
- the SLF4J MDC;
- the LocaleContextHolder;
- the RequestContextHolder with its request attributes;
- an application-defined CustomContext.

Five `ThreadLocalAccessor`s each read, write and clear one of these. The
`ContextPropagationManager` captures a key-to-value snapshot from all of them, restores
a snapshot on another thread and clears them all. The TaskDecorator in `ExecutorConfig`
captures on the submitting thread and, on the pooled thread, runs restore → task → clear.
The `UnifiedContextInterceptor` fills the accessors on the request thread.
`ContextRestorationService` lets a tool pull the state back into the platform holders
and rebuild the outbound `HttpHeaders`. `DetachedRequestAttributes` is the request
attribute copy that outlives the live request.

How the model is built:
- One thread's storage is the class `ThreadState.ThreadLocals`. Its fields are the five
  accessor slots and the platform holders. `View()` packs them into the value `Locals`.
- A second thread is a second object or `Locals` value.
- Every operation that changes storage is a method with `modifies`. Each is proved
  against a function on `Locals`, and the properties are lemmas about those functions.
- An exception is a `Failure`/`Fail` result. A method that throws leaves the storage as
  it was (`ThreadState.Committed`), or as the Java code leaves it at the throw.
- The field `requestHolderFault` says whether `RequestContextHolder` throws, and what.
  One field governs reading, writing and resetting the holder together:
  - On a read through the request-attributes accessor, `IllegalStateException` is caught
    (getValue is then null). Any other exception escapes `ContextRestorationService` and
    is caught only by the capture loop.
  - `preHandle` reads the holder directly, without the accessor, so every fault escapes
    it, `IllegalStateException` included.
  - Failures on write and on reset are swallowed by the accessor.

Consequences the model proves:
- Capture followed by restore reproduces every non-null accessor value on the second
  thread (`PropagationManager.RoundTrip`).
- A pooled thread is empty after any decorated task, whether the task completed or
  threw (`ExecutorConfig.TaskLeavesThreadEmpty`).
- After `restoreAllContexts`, CustomContext is always initialised.
- `DetachedRequestAttributes` copies attribute names verbatim but looks them up
  lower-cased. An attribute copied under a name containing an upper-case letter can never
  be read back (`DetachedRequest.MixedCaseAttributeIsUnreachable`). Headers stored under
  such a name behave the same way.
- `afterCompletion` does not clear CustomContext. A second request served on the same
  thread therefore skips seeding and gets no fresh request id
  (`UnifiedContextInterceptor.NextRequestReusesCustomContext`).

`ContextRestorationService` has a single version, which restores the custom context
first and then the MDC, the request attributes and the locale. The model follows that
code.

## Model

| member | source | states |
|---|---|---|
| ContextParam.ParamKey | server/src/main/java/com/example/server/model/ContextParamDefault.java:4-22 | each constant's parameter key, which is never empty |
| ContextParam.ContextType | server/src/main/java/com/example/server/model/ContextParamDefault.java:24-27 | every parameter's context type is String |
| ContextParam.ExactlyFourParams | server/src/main/java/com/example/server/model/ContextParamDefault.java:3-10 | the enum has exactly the four constants, all listed |
| ContextParam.ParamKeyInjective | server/src/main/java/com/example/server/model/ContextParamDefault.java:4-10 | distinct constants have distinct keys, so MDC entries never collide |
| Platform.MdcGet | server/src/main/java/com/example/server/context/CustomContext.java:49-52 | an MDC read is null without a context map, and the stored value otherwise |
| Platform.MdcPut | server/src/main/java/com/example/server/context/CustomContext.java:31-38 | MDC.put creates the map if needed, sets the key, and leaves every other key unchanged |
| Platform.MdcRemove | server/src/main/java/com/example/server/context/CustomContext.java:60-67 | MDC.remove deletes only that key and keeps a missing map missing |
| Platform.Lower | server/src/main/java/com/example/server/context/DetachedRequestAttributes.java:29 | toLowerCase keeps the length and lower-cases each character |
| Platform.LowerIsIdempotent | server/src/main/java/com/example/server/context/DetachedRequestAttributes.java:29-39 | lower-casing twice is lower-casing once |
| Platform.LowerFixesExactlyLowerCase | server/src/main/java/com/example/server/context/DetachedRequestAttributes.java:29-39 | a name is unchanged by lower-casing exactly when it has no upper-case letter |
| DetachedRequest.LookupAttribute | server/src/main/java/com/example/server/context/DetachedRequestAttributes.java:27-30 | getAttribute is null outside request scope; in request scope it returns the value under the lower-cased name, or null |
| DetachedRequest.CopyOfLiveIsExact | server/src/main/java/com/example/server/context/DetachedRequestAttributes.java:17-25 | the copy of a live request holds exactly its request-scope attributes, names unchanged |
| DetachedRequest.DetachedRequestAttributes.constructor | server/src/main/java/com/example/server/context/DetachedRequestAttributes.java:17-25 | the copy takes the original's session id, every request attribute, and a request over the header map |
| DetachedRequest.DetachedRequestAttributes.SetAttribute | server/src/main/java/com/example/server/context/DetachedRequestAttributes.java:32-35 | stores under the lower-cased name, in request scope only; every case-variant of the name then reads the value |
| DetachedRequest.DetachedRequestAttributes.RemoveAttribute | server/src/main/java/com/example/server/context/DetachedRequestAttributes.java:37-40 | deletes the lower-cased name, in request scope only; getAttribute is then null |
| DetachedRequest.DetachedRequestAttributes.GetAttributeNames | server/src/main/java/com/example/server/context/DetachedRequestAttributes.java:42-45 | the stored names for request scope, and none for any other scope |
| DetachedRequest.DetachedCopyKeepsLowerCaseAttribute | server/src/main/java/com/example/server/context/DetachedRequestAttributes.java:17-30 | an attribute of the live request with a lower-case name reads back from the copy unchanged |
| DetachedRequest.MixedCaseAttributeIsUnreachable | server/src/main/java/com/example/server/context/DetachedRequestAttributes.java:22-30 | an entry copied under a name with an upper-case letter never affects any getAttribute |
| DetachedRequest.NewMinimalRequest | server/src/main/java/com/example/server/context/DetachedRequestAttributes.java:56-58 | a null header map becomes an empty one, and any other map is copied |
| DetachedRequest.MinimalHttpServletRequest.GetHeader | server/src/main/java/com/example/server/context/DetachedRequestAttributes.java:60-63 | non-null exactly when the lower-cased name is stored, and then its value |
| DetachedRequest.MinimalHttpServletRequest.GetHeaders | server/src/main/java/com/example/server/context/DetachedRequestAttributes.java:70-74 | at most one value: getHeader's, or nothing when it is null |
| DetachedRequest.MixedCaseHeaderIsUnreachable | server/src/main/java/com/example/server/context/DetachedRequestAttributes.java:56-63 | a header stored under a name with an upper-case letter is never returned by getHeader |
| CustomContext.IsInitialized | server/src/main/java/com/example/server/context/CustomContext.java:74-76 | initialised exactly when the holder map exists (a predicate; its consequences are stated by AssertContextInitialized, InitSpec and ClearSpec) |
| DetachedRequest.DetachedRequestAttributes.GetAttribute | server/src/main/java/com/example/server/context/DetachedRequestAttributes.java:27-30 | null outside request scope; in request scope the value under the lower-cased name, and a non-null result is always such a stored value |
| DetachedRequest.DetachedRequestAttributes.GetSessionId | server/src/main/java/com/example/server/context/DetachedRequestAttributes.java:47-50 | the session id fixed at construction (a constant field, equal to the original's id by the constructor's contract) |
| HeaderContext.HeaderSlot.Get | client/src/main/java/com/example/client/config/HeaderContext.java:12-14 | the slot's current value; Set and Clear state what it is after each |
| UnifiedContextInterceptor.PreHandleSpec | server/src/main/java/com/example/server/interceptor/UnifiedContextInterceptor.java:43-87 | reference definition of preHandle: the header accessor always holds the request's headers, it throws exactly when RequestContextHolder does, and otherwise returns true; the step lemmas state the rest |
| PropagationManager.CaptureSpec | server/src/main/java/com/example/server/context/ContextPropagationManager.java:19-34 | reference definition of captureContext, visiting accessors in order and skipping null or throwing ones; characterised by CaptureIsExact |
| PropagationManager.RestoreSpec | server/src/main/java/com/example/server/context/ContextPropagationManager.java:38-52 | reference definition of restoreContext, calling setValue in order for each key present; characterised by RestoreInstalls, RestoreSkipsAbsent and RestoreKeepsFault |
| PropagationManager.ClearSpec | server/src/main/java/com/example/server/context/ContextPropagationManager.java:54-63 | reference definition of clearContext, clearing accessors in order; characterised by ClearSpecResult |
| ContextRestoration.HeaderEntries | server/src/main/java/com/example/server/service/ContextRestorationService.java:65-74 | empty for a null header map, otherwise exactly the header names, each with the one-element list of its value |
| ContextRestoration.RestoreAllSpec | server/src/main/java/com/example/server/service/ContextRestorationService.java:53-58 | the four steps in order; the only exception it can end with is the holder failure of the request step, and it completes only when the request accessor's read does |
| Accessors.AllAccessorsRegistered | server/src/main/java/com/example/server/context/ContextPropagationManager.java:13-17 | the injected accessor list holds all five accessor components, with pairwise distinct keys |
| CustomContext.AssertContextInitialized | server/src/main/java/com/example/server/context/CustomContext.java:94-98 | passes exactly when the holder is set, and otherwise throws ContextNotInitializedException |
| CustomContext.InitSpec | server/src/main/java/com/example/server/context/CustomContext.java:20-29 | fails with IllegalStateException if already initialised; otherwise installs an empty holder, puts the two ids in the MDC and keeps every other MDC key |
| CustomContext.Init | server/src/main/java/com/example/server/context/CustomContext.java:20-29 | the storage becomes InitSpec's result, or is left unchanged when it throws |
| CustomContext.PutSpec | server/src/main/java/com/example/server/context/CustomContext.java:31-38 | needs an initialised context; writes the value to the MDC under the key and changes nothing else |
| CustomContext.Put | server/src/main/java/com/example/server/context/CustomContext.java:31-38 | the storage becomes PutSpec's result, or is unchanged on a throw |
| CustomContext.PutObjectSpec | server/src/main/java/com/example/server/context/CustomContext.java:40-47 | needs an initialised context; a null key throws IllegalArgumentException; otherwise only the holder map changes, at that key |
| CustomContext.PutObject | server/src/main/java/com/example/server/context/CustomContext.java:40-47 | the storage becomes PutObjectSpec's result, or is unchanged on a throw |
| CustomContext.Get | server/src/main/java/com/example/server/context/CustomContext.java:49-52 | needs an initialised context; reads the MDC, not the holder |
| CustomContext.GetObject | server/src/main/java/com/example/server/context/CustomContext.java:54-58 | needs an initialised context; returns the holder's value, and a value that is not a String throws ClassCastException |
| CustomContext.RemoveSpec | server/src/main/java/com/example/server/context/CustomContext.java:60-67 | needs an initialised context; removes the key from the MDC only |
| CustomContext.Remove | server/src/main/java/com/example/server/context/CustomContext.java:60-67 | the storage becomes RemoveSpec's result, or is unchanged on a throw |
| CustomContext.ClearSpec | server/src/main/java/com/example/server/context/CustomContext.java:78-81 | the holder and the MDC become empty, and nothing else changes |
| CustomContext.Clear | server/src/main/java/com/example/server/context/CustomContext.java:78-81 | the storage becomes ClearSpec's result |
| CustomContext.ClearKeySpec | server/src/main/java/com/example/server/context/CustomContext.java:83-86 | needs an initialised context; removes the key from the MDC only |
| CustomContext.ClearKey | server/src/main/java/com/example/server/context/CustomContext.java:83-86 | the storage becomes ClearKeySpec's result, or is unchanged on a throw |
| CustomContext.ClearObjectSpec | server/src/main/java/com/example/server/context/CustomContext.java:88-91 | needs an initialised context; removes the key from the holder map only |
| CustomContext.ClearObject | server/src/main/java/com/example/server/context/CustomContext.java:88-91 | the storage becomes ClearObjectSpec's result, or is unchanged on a throw |
| CustomContext.ContainsKey | server/src/main/java/com/example/server/context/CustomContext.java:111-113 | throws NullPointerException when uninitialised; otherwise true exactly when the holder has the key |
| CustomContext.GetCopyOfContextHolderMap | server/src/main/java/com/example/server/context/CustomContext.java:115-120 | the holder's contents, or an empty map when uninitialised |
| CustomContext.SetContextHolderMapSpec | server/src/main/java/com/example/server/context/CustomContext.java:122-124 | afterwards the context is initialised, its copy equals the given map, and nothing else changes |
| CustomContext.SetContextHolderMap | server/src/main/java/com/example/server/context/CustomContext.java:122-124 | the storage becomes SetContextHolderMapSpec's result |
| CustomContext.InitTwiceFails | server/src/main/java/com/example/server/context/CustomContext.java:20-23 | a second init on the same thread throws IllegalStateException |
| CustomContext.ClearRestartsLifecycle | server/src/main/java/com/example/server/context/CustomContext.java:78-98 | after clear, get, put and getObject throw ContextNotInitializedException, init succeeds again, and clear is idempotent |
| CustomContext.PutAndPutObjectAreSeparate | server/src/main/java/com/example/server/context/CustomContext.java:31-58 | put writes the MDC and putObject writes the holder: neither is visible through the other's getter |
| CustomContext.SetThenCopy | server/src/main/java/com/example/server/context/CustomContext.java:115-124 | setContextHolderMap followed by getCopyOfContextHolderMap returns the map, keeps the MDC, and makes init fail |
| Accessors.Key | server/src/main/java/com/example/server/accessors/accessorsImpl/HeaderContextAccessor.java:13-16 | the five keys headers-context, mdc-context, locale-context, request-attributes and dt-context |
| Accessors.KeyInjective | server/src/main/java/com/example/server/accessors/accessorsImpl/MdcAccessor.java:14-17 | distinct accessors have distinct keys |
| Accessors.Get | server/src/main/java/com/example/server/accessors/accessorsImpl/RequestAttributesAccessor.java:18-31 | the slot if set, else the platform fallback (none for headers); only the request accessor can throw, and only for a non-IllegalState holder failure; dt-context is never null |
| Accessors.SetOutcome | server/src/main/java/com/example/server/context/ContextPropagationManager.java:37-46 | the raw setValue call throws ClassCastException exactly for a value of another accessor's type |
| Accessors.SetState | server/src/main/java/com/example/server/accessors/accessorsImpl/CustomContextAccessor.java:32-38 | setValue fills the slot and, for a non-null value, writes through to the platform holder (the RequestContextHolder only if it does not throw); every other accessor is untouched |
| Accessors.SetValue | server/src/main/java/com/example/server/accessors/accessorsImpl/MdcAccessor.java:28-34 | the storage becomes SetState's result, and the outcome is SetOutcome's |
| Accessors.ClearState | server/src/main/java/com/example/server/accessors/accessorsImpl/RequestAttributesAccessor.java:45-53 | clear empties the slot and resets the platform holder, ignoring a failing reset; dt-context also clears CustomContext and the MDC; other slots are untouched |
| Accessors.Clear | server/src/main/java/com/example/server/accessors/accessorsImpl/LocaleContextAccessor.java:35-39 | the storage becomes ClearState's result |
| Accessors.SetThenGet | server/src/main/java/com/example/server/accessors/accessorsImpl/LocaleContextAccessor.java:18-33 | getValue after setValue(v) returns v, for every accessor |
| Accessors.SetNullOnlyEmptiesSlot | server/src/main/java/com/example/server/accessors/accessorsImpl/LocaleContextAccessor.java:27-33 | setValue(null) empties the slot and leaves the platform holder as it was |
| Accessors.ClearThenGet | server/src/main/java/com/example/server/accessors/accessorsImpl/CustomContextAccessor.java:21-44 | after clear, getValue is null, except dt-context (an empty map) and a request holder that still throws |
| Accessors.ClearIsIdempotent | server/src/main/java/com/example/server/accessors/accessorsImpl/HeaderContextAccessor.java:28-31 | clearing twice is clearing once |
| PropagationManager.CaptureIsExact | server/src/main/java/com/example/server/context/ContextPropagationManager.java:19-34 | the snapshot has an entry for exactly the accessors whose getValue returned non-null without throwing, each holding that value, and no other keys |
| PropagationManager.CaptureContext | server/src/main/java/com/example/server/context/ContextPropagationManager.java:19-34 | the loop's result, the same exact characterisation, and no change to the thread |
| PropagationManager.RestoreInstalls | server/src/main/java/com/example/server/context/ContextPropagationManager.java:38-52 | an entry of the right type ends up in its accessor's slot and in its platform holder |
| PropagationManager.RestoreKeepsFault | server/src/main/java/com/example/server/context/ContextPropagationManager.java:38-52 | restoring never changes how the RequestContextHolder behaves |
| PropagationManager.RestoreSkipsAbsent | server/src/main/java/com/example/server/context/ContextPropagationManager.java:43-46 | an accessor whose key has no entry is not called: its slot and holder are untouched |
| PropagationManager.RestoreContext | server/src/main/java/com/example/server/context/ContextPropagationManager.java:38-52 | a null snapshot changes nothing; otherwise the storage becomes the restore function's result |
| PropagationManager.RoundTrip | server/src/main/java/com/example/server/context/ContextPropagationManager.java:19-52 | restoring a capture on a second thread makes each captured accessor return the same value there |
| PropagationManager.ClearSpecResult | server/src/main/java/com/example/server/context/ContextPropagationManager.java:54-63 | clearContext empties every listed accessor's slot and holder and leaves everything else |
| PropagationManager.ClearOrderIrrelevant | server/src/main/java/com/example/server/context/ContextPropagationManager.java:54-63 | the result of clearContext does not depend on the order of the accessors |
| PropagationManager.ClearedThreadIsEmpty | server/src/main/java/com/example/server/context/ContextPropagationManager.java:54-63 | with all five accessors, every getValue is null afterwards (dt-context an empty map) |
| PropagationManager.ClearContext | server/src/main/java/com/example/server/context/ContextPropagationManager.java:54-63 | the storage becomes the clear function's result |
| ExecutorConfig.Decorate | server/src/main/java/com/example/server/config/ExecutorConfig.java:24-29 | the snapshot is taken on the submitting thread when the task is decorated, before it runs |
| ExecutorConfig.Run | server/src/main/java/com/example/server/config/ExecutorConfig.java:31-41 | restore, then the task, then clearContext whether or not the task threw; the task's exception propagates |
| ExecutorConfig.TrafficTypeReachesTask | server/src/main/java/com/example/server/config/ExecutorConfig.java:24-36 | a traffic type held by the submitter's dt-context is what getObject returns inside the task |
| ExecutorConfig.TaskLeavesThreadEmpty | server/src/main/java/com/example/server/config/ExecutorConfig.java:31-41 | after any decorated task, with all five accessors, the pooled thread holds nothing |
| ContextRestoration.RestoreCustomStep | server/src/main/java/com/example/server/service/ContextRestorationService.java:77-87 | installs the accessor's map only when CustomContext is uninitialised; afterwards it is always initialised |
| ContextRestoration.RestoreMdcStep | server/src/main/java/com/example/server/service/ContextRestorationService.java:89-95 | replaces the MDC with a non-null accessor value, and otherwise changes nothing |
| ContextRestoration.RestoreRequestStep | server/src/main/java/com/example/server/service/ContextRestorationService.java:97-108 | throws exactly when the accessor's getValue throws; pushes a non-null value into RequestContextHolder and swallows that holder's failure |
| ContextRestoration.RestoreLocaleStep | server/src/main/java/com/example/server/service/ContextRestorationService.java:110-122 | pushes a non-null value into LocaleContextHolder, and otherwise changes nothing |
| ContextRestoration.RestoreCustomContext | server/src/main/java/com/example/server/service/ContextRestorationService.java:77-87 | the storage becomes RestoreCustomStep's result |
| ContextRestoration.RestoreMdcContext | server/src/main/java/com/example/server/service/ContextRestorationService.java:89-95 | the storage becomes RestoreMdcStep's result |
| ContextRestoration.RestoreRequestAttributes | server/src/main/java/com/example/server/service/ContextRestorationService.java:97-108 | the storage becomes RestoreRequestStep's result, or is unchanged when it throws |
| ContextRestoration.RestoreLocaleContext | server/src/main/java/com/example/server/service/ContextRestorationService.java:110-122 | the storage becomes RestoreLocaleStep's result |
| ContextRestoration.RestoreAllContexts | server/src/main/java/com/example/server/service/ContextRestorationService.java:53-58 | the four steps run in the order custom, MDC, request attributes, locale, stopping at a throw |
| ContextRestoration.RestoreAllInitialises | server/src/main/java/com/example/server/service/ContextRestorationService.java:53-87 | CustomContext is initialised afterwards even when a later step throws, no accessor slot changes, and it throws exactly when the request accessor does |
| ContextRestoration.AddHeader | server/src/main/java/com/example/server/service/ContextRestorationService.java:71 | HttpHeaders.add appends the value to the name's list and leaves other names alone |
| ContextRestoration.GetHttpHeaders | server/src/main/java/com/example/server/service/ContextRestorationService.java:65-74 | an empty collection for a null header map, otherwise one single-valued entry per header; no change to the thread |
| ContextRestoration.RestoreAllContextsAndGetHeaders | server/src/main/java/com/example/server/service/ContextRestorationService.java:42-48 | the same four steps as restoreAllContexts, then the headers held before the steps |
| ContextRestoration.HeadersReachTask | server/src/main/java/com/example/server/service/ContextRestorationService.java:42-74 | headers {x-traffic-color: blue} captured on the request thread come back as x-traffic-color: [blue] inside a pooled task |
| UnifiedContextInterceptor.SeedSpec | server/src/main/java/com/example/server/interceptor/UnifiedContextInterceptor.java:79-84 | init, then the two traffic defaults put with putObject, then dt-context set to a copy of the holder |
| UnifiedContextInterceptor.PreHandleReturnsTrue | server/src/main/java/com/example/server/interceptor/UnifiedContextInterceptor.java:43-87 | preHandle returns true whenever it returns, and throws exactly when RequestContextHolder does |
| UnifiedContextInterceptor.PreHandleStoresHeaders | server/src/main/java/com/example/server/interceptor/UnifiedContextInterceptor.java:45-49 | the header accessor then holds the request's header map |
| UnifiedContextInterceptor.PreHandleStoresRequestAttributes | server/src/main/java/com/example/server/interceptor/UnifiedContextInterceptor.java:52-62 | servlet attributes are stored as the detached copy, other attributes as they are, and nothing new when RequestContextHolder is empty |
| UnifiedContextInterceptor.PreHandleStoresLocaleAndMdc | server/src/main/java/com/example/server/interceptor/UnifiedContextInterceptor.java:65-76 | locale and MDC accessors are set only from non-null holders; the MDC value is the one before init |
| UnifiedContextInterceptor.PreHandleSeedsCustomContext | server/src/main/java/com/example/server/interceptor/UnifiedContextInterceptor.java:79-84 | an uninitialised CustomContext gets colour blue, type live and the request id, mirrored into dt-context; an initialised one and dt-context are left alone |
| UnifiedContextInterceptor.PreHandle | server/src/main/java/com/example/server/interceptor/UnifiedContextInterceptor.java:43-87 | the storage and result of the preHandle function, with a fresh detached copy of servlet attributes over the request's headers |
| UnifiedContextInterceptor.StoreRequestAttributes | server/src/main/java/com/example/server/interceptor/UnifiedContextInterceptor.java:52-62 | the request-attributes block, with the detached copy's session id, attributes and headers |
| UnifiedContextInterceptor.StoreLocaleAndMdc | server/src/main/java/com/example/server/interceptor/UnifiedContextInterceptor.java:65-76 | the locale and MDC blocks |
| UnifiedContextInterceptor.SeedCustomContext | server/src/main/java/com/example/server/interceptor/UnifiedContextInterceptor.java:79-84 | the CustomContext block, taken only when CustomContext is uninitialised |
| UnifiedContextInterceptor.AfterCompletionSpec | server/src/main/java/com/example/server/interceptor/UnifiedContextInterceptor.java:90-93 | the header and MDC accessors and the MDC are emptied, and nothing else changes |
| UnifiedContextInterceptor.AfterCompletionClearsOnlyTwo | server/src/main/java/com/example/server/interceptor/UnifiedContextInterceptor.java:90-93 | afterwards header and MDC getValue are null; the locale, request-attribute and dt-context slots and the CustomContext holder are unchanged |
| UnifiedContextInterceptor.AfterCompletion | server/src/main/java/com/example/server/interceptor/UnifiedContextInterceptor.java:90-93 | the storage becomes AfterCompletionSpec's result |
| UnifiedContextInterceptor.NextRequestReusesCustomContext | server/src/main/java/com/example/server/interceptor/UnifiedContextInterceptor.java:79-93 | a second request on the same thread keeps the first request's CustomContext and gets no request id |
| HeaderContext.HeaderSlot.constructor | client/src/main/java/com/example/client/config/HeaderContext.java:6 | a thread starts with no headers |
| HeaderContext.HeaderSlot.Set | client/src/main/java/com/example/client/config/HeaderContext.java:8-10 | get then returns the map, null included, whatever was set before |
| HeaderContext.HeaderSlot.Clear | client/src/main/java/com/example/client/config/HeaderContext.java:16-18 | get then returns null, whatever the state before, so clear is idempotent |

## Left out

- Logging: every `System.out`/`System.err` print is left out, along with the debug print in `getHttpHeaders`.
- Real threads, `ThreadPoolTaskExecutor` sizing and bean wiring: threads are independent storage objects, and the pool's scheduling and concurrency are not modelled.
- `InheritableThreadLocal` inheritance when a child thread is created: a new thread starts from whatever storage the caller supplies.
- UUID generation: the request and correlation ids are parameters.
- Locale and TimeZone contents: a locale is an opaque tag.
- Spring `HttpHeaders` case-insensitivity: `HttpHeaders` is a plain map.
- `toLowerCase` outside ASCII: `Platform.Lower` lower-cases only A–Z.
- `Accessors.SetOutcome`: a snapshot entry of another accessor's Java type is rejected with ClassCastException. Java's erasure would let a `Map<String,String>` into dt-context; here only the header and MDC maps, which share a Java type, are interchangeable.
- Null arguments are modelled where the code tests for them (`putObject`'s key, `setValue(null)`, `restoreContext(null)`, a null header map, `HeaderContext.set(null)`). The others are not: `CustomContext.put`, `get`, `remove`, `clear(key)` and `getObject` with a null parameter (a NullPointerException in Java), and `MDC.put(k, null)`. Their parameter types have no null.
- `RequestContextHolder` faults are a modelling device. Spring's `getRequestAttributes`, `setRequestAttributes` and `resetRequestAttributes` do not throw; the fault field exists only to make the code's catch branches reachable.
- `Accessors.ClearThenGet`, `PropagationManager.ClearedThreadIsEmpty`: because one fault field covers read, write and reset, a holder whose reset throws while its read succeeds cannot be expressed. In Java that holder would keep the old attributes, and the request accessor's getValue would return them after `clear()`. The request clauses of these two lemmas rely on that coupling.
- `PropagationManager.ClearContext`: clearing never throws in this model, so its catch branch is unreachable.
- `DetachedRequest.DetachedRequestAttributes.GetAttributeNames`: returns a set rather than a `String[]`, because the array's order is that of a HashMap.
- A task's own changes to `DetachedRequestAttributes` objects it reaches through the storage: a `Runnable` is a function on the storage value.
- `CustomContext.getOpsObject` (marked for deletion) and `getCopyOfContextMap` (an MDC pass-through) are not modelled.
- The stub methods of `MinimalHttpServletRequest` and all of `MinimalHttpServletResponse` are not modelled: they return constants.
- `CustomContextParam.java` is not part of this model: parameters are the four `ContextParamDefault` constants.
- `UserService`, `ToolsConfig`, `WebConfig`, `UsersResponse`, `WebClientHeaderInjector` and `ChatController` are not modelled: they are outbound I/O, wiring, a DTO, or thin wrappers over libraries that are not shown.
- `UnifiedContextInterceptor.PreHandle`: the request is its header map, taking each name's first value. The servlet request object itself is not modelled.

/**
 * CustomContext: a per-thread typed holder map (uninitialised until init) layered
 * over the MDC. Reads are functions of a thread's storage; every operation that
 * changes the storage is a method proved against a function giving its result.
 */
module CustomContext {
  import opened Wrappers
  import opened Platform
  import opened ContextParam
  import opened ThreadState

  /** isInitialized: the holder map exists. */
  predicate IsInitialized(s: Locals) {
    s.customHolder.Some?
  }

  /** Only the custom context's own storage (MDC and holder map) differs between s and t. */
  predicate OnlyStoreChanged(s: Locals, t: Locals) {
    t == s.(mdc := t.mdc, customHolder := t.customHolder)
  }

  /** asertContextInitialized */
  function AssertContextInitialized(s: Locals): (o: Outcome<ContextError>)
    ensures o == Pass <==> IsInitialized(s)
    ensures o != Pass ==> o == Fail(ContextNotInitialized)
  {
    if IsInitialized(s) then Pass else Fail(ContextNotInitialized)
  }

  /** init, with the two freshly generated UUIDs as parameters. */
  function InitSpec(s: Locals, requestId: string, correlationId: string): (r: Result<Locals, ContextError>)
    ensures IsInitialized(s) ==> r == Failure(IllegalState)
    ensures !IsInitialized(s) ==> r.Success? && OnlyStoreChanged(s, r.value)
    ensures !IsInitialized(s) ==> r.Success? && r.value.customHolder == Some(map[])
    ensures !IsInitialized(s) ==> (r.Success?
      && MdcGet(r.value.mdc, ParamKey(REQUEST_ID)) == Some(requestId)
      && MdcGet(r.value.mdc, ParamKey(CORRELATION_ID)) == Some(correlationId)
      && forall k :: k != ParamKey(REQUEST_ID) && k != ParamKey(CORRELATION_ID) ==>
           MdcGet(r.value.mdc, k) == MdcGet(s.mdc, k))
  {
    if IsInitialized(s) then Failure(IllegalState)
    else
      var withRequestId := MdcPut(s.mdc, ParamKey(REQUEST_ID), requestId);
      Success(s.(customHolder := Some(map[]), mdc := MdcPut(withRequestId, ParamKey(CORRELATION_ID), correlationId)))
  }

  /** put: a string value into the MDC under the parameter's key. */
  function PutSpec(s: Locals, p: ContextParamDefault, value: string): (r: Result<Locals, ContextError>)
    ensures !IsInitialized(s) ==> r == Failure(ContextNotInitialized)
    ensures IsInitialized(s) ==> r.Success? && r.value == s.(mdc := r.value.mdc)
    ensures IsInitialized(s) ==> (r.Success? && MdcGet(r.value.mdc, ParamKey(p)) == Some(value)
      && forall k :: k != ParamKey(p) ==> MdcGet(r.value.mdc, k) == MdcGet(s.mdc, k))
  {
    if !IsInitialized(s) then Failure(ContextNotInitialized)
    else if ParamKey(p) == "" then Failure(IllegalArgument)
    else Success(s.(mdc := MdcPut(s.mdc, ParamKey(p), value)))
  }

  /** putObject: a value into the holder map; a null key (None) is rejected. */
  function PutObjectSpec(s: Locals, key: Option<ContextParamDefault>, value: Obj): (r: Result<Locals, ContextError>)
    ensures !IsInitialized(s) ==> r == Failure(ContextNotInitialized)
    ensures IsInitialized(s) && key.None? ==> r == Failure(IllegalArgument)
    ensures IsInitialized(s) && key.Some? ==> r.Success? && r.value == s.(customHolder := r.value.customHolder)
    ensures IsInitialized(s) && key.Some? ==> (r.Success? && r.value.customHolder.Some?
      && r.value.customHolder.value == s.customHolder.value[key.value := value])
  {
    if !IsInitialized(s) then Failure(ContextNotInitialized)
    else if key.None? then Failure(IllegalArgument)
    else Success(s.(customHolder := Some(s.customHolder.value[key.value := value])))
  }

  /** get: reads the MDC, not the holder map. */
  function Get(s: Locals, p: ContextParamDefault): (r: Result<Option<string>, ContextError>)
    ensures !IsInitialized(s) ==> r == Failure(ContextNotInitialized)
    ensures IsInitialized(s) ==> r == Success(MdcGet(s.mdc, ParamKey(p)))
  {
    if !IsInitialized(s) then Failure(ContextNotInitialized) else Success(MdcGet(s.mdc, ParamKey(p)))
  }

  /** The holder map's entry for p, null when absent. */
  function HolderValue(s: Locals, p: ContextParamDefault): Obj
    requires IsInitialized(s)
  {
    if p in s.customHolder.value then s.customHolder.value[p] else Null
  }

  /** Class.cast: null and instances of the class pass, anything else throws. */
  predicate CastSucceeds(v: Obj, c: JavaClass) {
    v.Null? || c == ObjectClass || v.Str?
  }

  /** getObject: reads the holder map, not the MDC, and casts to the parameter's type. */
  function GetObject(s: Locals, p: ContextParamDefault): (r: Result<Obj, ContextError>)
    ensures !IsInitialized(s) ==> r == Failure(ContextNotInitialized)
    ensures IsInitialized(s) && !HolderValue(s, p).Opaque? ==> r == Success(HolderValue(s, p))
    ensures IsInitialized(s) && HolderValue(s, p).Opaque? ==> r == Failure(ClassCast)
  {
    if !IsInitialized(s) then Failure(ContextNotInitialized)
    else if CastSucceeds(HolderValue(s, p), ContextType(p)) then Success(HolderValue(s, p))
    else Failure(ClassCast)
  }

  /** remove: deletes the parameter's key from the MDC. */
  function RemoveSpec(s: Locals, p: ContextParamDefault): (r: Result<Locals, ContextError>)
    ensures !IsInitialized(s) ==> r == Failure(ContextNotInitialized)
    ensures IsInitialized(s) ==> (r.Success? && r.value == s.(mdc := r.value.mdc)
      && MdcGet(r.value.mdc, ParamKey(p)) == None
      && forall k :: k != ParamKey(p) ==> MdcGet(r.value.mdc, k) == MdcGet(s.mdc, k))
  {
    if !IsInitialized(s) then Failure(ContextNotInitialized)
    else if ParamKey(p) == "" then Failure(IllegalArgument)
    else Success(s.(mdc := MdcRemove(s.mdc, ParamKey(p))))
  }

  /** clear(key): deletes the parameter's key from the MDC, without the empty-key check. */
  function ClearKeySpec(s: Locals, p: ContextParamDefault): (r: Result<Locals, ContextError>)
    ensures !IsInitialized(s) ==> r == Failure(ContextNotInitialized)
    ensures IsInitialized(s) ==> (r.Success? && r.value == s.(mdc := r.value.mdc)
      && MdcGet(r.value.mdc, ParamKey(p)) == None
      && forall k :: k != ParamKey(p) ==> MdcGet(r.value.mdc, k) == MdcGet(s.mdc, k))
  {
    if !IsInitialized(s) then Failure(ContextNotInitialized)
    else Success(s.(mdc := MdcRemove(s.mdc, ParamKey(p))))
  }

  /** clearObject: deletes the parameter from the holder map. */
  function ClearObjectSpec(s: Locals, p: ContextParamDefault): (r: Result<Locals, ContextError>)
    ensures !IsInitialized(s) ==> r == Failure(ContextNotInitialized)
    ensures IsInitialized(s) ==> (r.Success? && r.value == s.(customHolder := r.value.customHolder)
      && r.value.customHolder.Some? && p !in r.value.customHolder.value
      && forall q :: q != p ==> HolderValue(r.value, q) == HolderValue(s, q))
  {
    if !IsInitialized(s) then Failure(ContextNotInitialized)
    else Success(s.(customHolder := Some(s.customHolder.value - {p})))
  }

  /** clear: empties the MDC and drops the holder map; it never fails. */
  function ClearSpec(s: Locals): (r: Locals)
    ensures !IsInitialized(r) && r.mdc.None? && OnlyStoreChanged(s, r)
  {
    s.(mdc := None, customHolder := None)
  }

  /** containsKey: dereferences the holder map, so it throws when there is none. */
  function ContainsKey(s: Locals, p: ContextParamDefault): (r: Result<bool, ContextError>)
    ensures !IsInitialized(s) ==> r == Failure(NullPointer)
    ensures IsInitialized(s) ==> r.Success? && (r.value <==> p in s.customHolder.value)
  {
    if !IsInitialized(s) then Failure(NullPointer) else Success(p in s.customHolder.value)
  }

  /** getCopyOfContextHolderMap: the holder map, or an empty map when uninitialised. */
  function GetCopyOfContextHolderMap(s: Locals): (m: CustomMap)
    ensures IsInitialized(s) ==> m == s.customHolder.value
    ensures !IsInitialized(s) ==> m == map[]
  {
    if s.customHolder.None? then map[] else s.customHolder.value
  }

  /** setContextHolderMap: installs a copy of m without the init check and without touching the MDC. */
  function SetContextHolderMapSpec(s: Locals, m: CustomMap): (r: Locals)
    ensures IsInitialized(r) && GetCopyOfContextHolderMap(r) == m
    ensures r == s.(customHolder := r.customHolder)
  {
    s.(customHolder := Some(m))
  }

  // ---- the operations that change a thread's storage ----

  method Init(th: ThreadLocals, requestId: string, correlationId: string) returns (o: Outcome<ContextError>)
    modifies th
    ensures Committed(InitSpec(old(th.View()), requestId, correlationId), o, old(th.View()), th.View())
  {
    if IsInitialized(th.View()) {
      return Fail(IllegalState);
    }
    th.customHolder := Some(map[]);
    th.mdc := MdcPut(th.mdc, ParamKey(REQUEST_ID), requestId);
    th.mdc := MdcPut(th.mdc, ParamKey(CORRELATION_ID), correlationId);
    o := Pass;
  }

  method Put(th: ThreadLocals, p: ContextParamDefault, value: string) returns (o: Outcome<ContextError>)
    modifies th
    ensures Committed(PutSpec(old(th.View()), p, value), o, old(th.View()), th.View())
  {
    o := AssertContextInitialized(th.View());
    if o.Fail? {
      return;
    }
    if ParamKey(p) == "" {
      return Fail(IllegalArgument);
    }
    th.mdc := MdcPut(th.mdc, ParamKey(p), value);
  }

  method PutObject(th: ThreadLocals, key: Option<ContextParamDefault>, value: Obj) returns (o: Outcome<ContextError>)
    modifies th
    ensures Committed(PutObjectSpec(old(th.View()), key, value), o, old(th.View()), th.View())
  {
    o := AssertContextInitialized(th.View());
    if o.Fail? {
      return;
    }
    if key.None? {
      return Fail(IllegalArgument);
    }
    th.customHolder := Some(th.customHolder.value[key.value := value]);
  }

  method Remove(th: ThreadLocals, p: ContextParamDefault) returns (o: Outcome<ContextError>)
    modifies th
    ensures Committed(RemoveSpec(old(th.View()), p), o, old(th.View()), th.View())
  {
    o := AssertContextInitialized(th.View());
    if o.Fail? {
      return;
    }
    if ParamKey(p) == "" {
      return Fail(IllegalArgument);
    }
    th.mdc := MdcRemove(th.mdc, ParamKey(p));
  }

  /** clear(key) */
  method ClearKey(th: ThreadLocals, p: ContextParamDefault) returns (o: Outcome<ContextError>)
    modifies th
    ensures Committed(ClearKeySpec(old(th.View()), p), o, old(th.View()), th.View())
  {
    o := AssertContextInitialized(th.View());
    if o.Fail? {
      return;
    }
    th.mdc := MdcRemove(th.mdc, ParamKey(p));
  }

  method ClearObject(th: ThreadLocals, p: ContextParamDefault) returns (o: Outcome<ContextError>)
    modifies th
    ensures Committed(ClearObjectSpec(old(th.View()), p), o, old(th.View()), th.View())
  {
    o := AssertContextInitialized(th.View());
    if o.Fail? {
      return;
    }
    th.customHolder := Some(th.customHolder.value - {p});
  }

  method Clear(th: ThreadLocals)
    modifies th
    ensures th.View() == ClearSpec(old(th.View()))
  {
    th.mdc := None;
    th.customHolder := None;
  }

  method SetContextHolderMap(th: ThreadLocals, m: CustomMap)
    modifies th
    ensures th.View() == SetContextHolderMapSpec(old(th.View()), m)
  {
    th.customHolder := Some(m);
  }

  // ---- lifecycle and isolation properties ----

  /** A second init without an intervening clear throws IllegalStateException. */
  lemma InitTwiceFails(s: Locals, id1: string, id2: string, id3: string, id4: string)
    requires InitSpec(s, id1, id2).Success?
    ensures InitSpec(InitSpec(s, id1, id2).value, id3, id4) == Failure(IllegalState)
  {
  }

  /** After clear the store is back in its pre-init state: reads and writes fail, init succeeds. */
  lemma ClearRestartsLifecycle(s: Locals, p: ContextParamDefault, v: string, id1: string, id2: string)
    ensures Get(ClearSpec(s), p) == Failure(ContextNotInitialized)
    ensures PutSpec(ClearSpec(s), p, v) == Failure(ContextNotInitialized)
    ensures GetObject(ClearSpec(s), p) == Failure(ContextNotInitialized)
    ensures InitSpec(ClearSpec(s), id1, id2).Success?
    ensures ClearSpec(ClearSpec(s)) == ClearSpec(s)
  {
  }

  /** put writes only the MDC and putObject only the holder map, so neither is visible to the other's getter. */
  lemma PutAndPutObjectAreSeparate(s: Locals, p: ContextParamDefault, q: ContextParamDefault, v: string, o: Obj)
    requires IsInitialized(s)
    ensures GetObject(PutSpec(s, p, v).value, q) == GetObject(s, q)
    ensures Get(PutObjectSpec(s, Some(p), o).value, q) == Get(s, q)
    ensures Get(PutSpec(s, p, v).value, p) == Success(Some(v))
    ensures GetObject(PutObjectSpec(s, Some(p), Str(v)).value, p) == Success(Str(v))
  {
  }

  /** Installing a holder map makes it readable back without an init, and leaves the MDC as it was. */
  lemma SetThenCopy(s: Locals, m: CustomMap, p: ContextParamDefault)
    ensures GetCopyOfContextHolderMap(SetContextHolderMapSpec(s, m)) == m
    ensures SetContextHolderMapSpec(s, m).mdc == s.mdc
    ensures InitSpec(SetContextHolderMapSpec(s, m), "", "") == Failure(IllegalState)
  {
  }
}

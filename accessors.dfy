/**
 * The five ThreadLocalAccessor implementations. Each has a key, a getValue that
 * reads its slot (falling back on a platform holder for four of them), a setValue
 * that fills the slot (and, for four of them, writes through to the platform), and a clear.
 */
module Accessors {
  import opened Wrappers
  import opened Platform
  import opened ThreadState
  import CustomContext

  datatype Accessor =
    | HeaderContextAccessor
    | MdcAccessor
    | LocaleContextAccessor
    | RequestAttributesAccessor
    | CustomContextAccessor

  /** The five accessors. */
  const AllAccessors: seq<Accessor> :=
    [HeaderContextAccessor, MdcAccessor, LocaleContextAccessor, RequestAttributesAccessor, CustomContextAccessor]

  /** getKey */
  function Key(a: Accessor): (k: string)
    ensures |k| > 0
  {
    match a
    case HeaderContextAccessor => "headers-context"
    case MdcAccessor => "mdc-context"
    case LocaleContextAccessor => "locale-context"
    case RequestAttributesAccessor => "request-attributes"
    case CustomContextAccessor => "dt-context"
  }

  /** The keys are unique, so a key identifies its accessor. */
  lemma KeyInjective(a: Accessor, b: Accessor)
    ensures Key(a) == Key(b) <==> a == b
  {
  }

  /**
   * The list Spring injects into the manager holds every accessor component once, so
   * their keys are pairwise distinct.
   */
  lemma AllAccessorsRegistered()
    ensures forall a :: a in AllAccessors
    ensures forall i, j :: 0 <= i < j < |AllAccessors| ==> Key(AllAccessors[i]) != Key(AllAccessors[j])
  {
    forall a ensures a in AllAccessors {
      match a
      case HeaderContextAccessor => assert AllAccessors[0] == a;
      case MdcAccessor => assert AllAccessors[1] == a;
      case LocaleContextAccessor => assert AllAccessors[2] == a;
      case RequestAttributesAccessor => assert AllAccessors[3] == a;
      case CustomContextAccessor => assert AllAccessors[4] == a;
    }
  }

  /** Whether a value has the Java type the accessor's setValue takes (otherwise the raw call throws ClassCastException). */
  predicate Accepts(a: Accessor, v: CtxValue) {
    match a
    case HeaderContextAccessor => v.StringMap?
    case MdcAccessor => v.StringMap?
    case LocaleContextAccessor => v.Locale?
    case RequestAttributesAccessor => v.Attributes?
    case CustomContextAccessor => v.CustomValues?
  }

  /** The accessor's own thread-local slot. */
  function Slot(a: Accessor, s: Locals): (r: Option<CtxValue>)
    ensures r.Some? ==> Accepts(a, r.value)
  {
    match a
    case HeaderContextAccessor => if s.headerSlot.Some? then Some(StringMap(s.headerSlot.value)) else None
    case MdcAccessor => if s.mdcSlot.Some? then Some(StringMap(s.mdcSlot.value)) else None
    case LocaleContextAccessor => if s.localeSlot.Some? then Some(Locale(s.localeSlot.value)) else None
    case RequestAttributesAccessor => if s.requestSlot.Some? then Some(Attributes(s.requestSlot.value)) else None
    case CustomContextAccessor => if s.customSlot.Some? then Some(CustomValues(s.customSlot.value)) else None
  }

  /** The platform holder the accessor falls back on and writes through to (the header accessor has none). */
  function Ambient(a: Accessor, s: Locals): (r: Option<CtxValue>)
    ensures r.Some? ==> Accepts(a, r.value)
  {
    match a
    case HeaderContextAccessor => None
    case MdcAccessor => if s.mdc.Some? then Some(StringMap(s.mdc.value)) else None
    case LocaleContextAccessor => if s.localeHolder.Some? then Some(Locale(s.localeHolder.value)) else None
    case RequestAttributesAccessor => if s.requestHolder.Some? then Some(Attributes(s.requestHolder.value)) else None
    case CustomContextAccessor => if s.customHolder.Some? then Some(CustomValues(s.customHolder.value)) else None
  }

  /** getValue: Success(None) is a null result, Failure an exception thrown out of it. */
  function Get(a: Accessor, s: Locals): (r: Result<Option<CtxValue>, ContextError>)
    ensures Slot(a, s).Some? ==> r == Success(Slot(a, s))
    ensures r.Success? && r.value.Some? ==> Accepts(a, r.value.value)
    ensures r.Failure? <==> (a == RequestAttributesAccessor && Slot(a, s).None?
                             && s.requestHolderFault == Some(RuntimeFault))
    ensures r.Failure? ==> r.error == HolderFailure
    ensures a == HeaderContextAccessor ==> r == Success(Slot(a, s))
    ensures (a == MdcAccessor || a == LocaleContextAccessor) && Slot(a, s).None? ==> r == Success(Ambient(a, s))
    ensures a == RequestAttributesAccessor && Slot(a, s).None? && s.requestHolderFault.None? ==> r == Success(Ambient(a, s))
    ensures a == RequestAttributesAccessor && Slot(a, s).None? && s.requestHolderFault == Some(IllegalStateFault) ==>
              r == Success(None)
    ensures a == CustomContextAccessor ==> r.Success? && r.value.Some?
    ensures a == CustomContextAccessor && Slot(a, s).None? ==>
              r == Success(Some(CustomValues(CustomContext.GetCopyOfContextHolderMap(s))))
  {
    if Slot(a, s).Some? then Success(Slot(a, s))
    else match a
      case HeaderContextAccessor => Success(None)
      case MdcAccessor => Success(Ambient(a, s))
      case LocaleContextAccessor => Success(Ambient(a, s))
      case RequestAttributesAccessor =>
        (match s.requestHolderFault
         case None => Success(Ambient(a, s))
         case Some(IllegalStateFault) => Success(None)   // caught: no request context
         case Some(RuntimeFault) => Failure(HolderFailure))
      case CustomContextAccessor =>
        if CustomContext.IsInitialized(s) then Success(Some(CustomValues(CustomContext.GetCopyOfContextHolderMap(s))))
        else Success(Some(CustomValues(map[])))
  }

  /** What setValue throws: only a value of the wrong type, before the body runs. */
  function SetOutcome(a: Accessor, v: Option<CtxValue>): (o: Outcome<ContextError>)
    ensures o == Pass <==> v.None? || Accepts(a, v.value)
    ensures o != Pass ==> o == Fail(ClassCast)
  {
    if v.None? || Accepts(a, v.value) then Pass else Fail(ClassCast)
  }

  /** setValue: the thread's storage afterwards. */
  function SetState(a: Accessor, v: Option<CtxValue>, s: Locals): (r: Locals)
    ensures v.Some? && !Accepts(a, v.value) ==> r == s
    ensures v.None? || Accepts(a, v.value) ==> Slot(a, r) == v
    ensures v.None? ==> Ambient(a, r) == Ambient(a, s)
    ensures v.Some? && Accepts(a, v.value) && a != HeaderContextAccessor && a != RequestAttributesAccessor ==>
              Ambient(a, r) == v
    ensures v.Some? && Accepts(a, v.value) && a == RequestAttributesAccessor ==>
              Ambient(a, r) == if s.requestHolderFault.None? then v else Ambient(a, s)
    ensures forall b :: b != a ==> Slot(b, r) == Slot(b, s) && Ambient(b, r) == Ambient(b, s)
    ensures r.requestHolderFault == s.requestHolderFault
  {
    if v.Some? && !Accepts(a, v.value) then s
    else match a
      case HeaderContextAccessor => s.(headerSlot := if v.Some? then Some(v.value.m) else None)
      case MdcAccessor =>
        if v.Some? then s.(mdcSlot := Some(v.value.m), mdc := Some(v.value.m)) else s.(mdcSlot := None)
      case LocaleContextAccessor =>
        if v.Some? then s.(localeSlot := Some(v.value.lc), localeHolder := Some(v.value.lc)) else s.(localeSlot := None)
      case RequestAttributesAccessor =>
        if v.None? then s.(requestSlot := None)
        else if s.requestHolderFault.None? then s.(requestSlot := Some(v.value.ra), requestHolder := Some(v.value.ra))
        else s.(requestSlot := Some(v.value.ra))   // the holder threw; the failure is swallowed
      case CustomContextAccessor =>
        if v.Some? then CustomContext.SetContextHolderMapSpec(s.(customSlot := Some(v.value.cm)), v.value.cm)
        else s.(customSlot := None)
  }

  /** clear: the thread's storage afterwards. */
  function ClearState(a: Accessor, s: Locals): (r: Locals)
    ensures Slot(a, r) == None
    ensures a != RequestAttributesAccessor || s.requestHolderFault.None? ==> Ambient(a, r) == None
    ensures a == RequestAttributesAccessor && s.requestHolderFault.Some? ==> Ambient(a, r) == Ambient(a, s)
    ensures a == CustomContextAccessor ==> r.mdc.None?
    ensures forall b :: b != a ==> Slot(b, r) == Slot(b, s)
    ensures forall b :: b != a && (a != CustomContextAccessor || b != MdcAccessor) ==> Ambient(b, r) == Ambient(b, s)
    ensures r.requestHolderFault == s.requestHolderFault
  {
    match a
    case HeaderContextAccessor => s.(headerSlot := None)
    case MdcAccessor => s.(mdcSlot := None, mdc := None)
    case LocaleContextAccessor => s.(localeSlot := None, localeHolder := None)
    case RequestAttributesAccessor =>
      if s.requestHolderFault.None? then s.(requestSlot := None, requestHolder := None)
      else s.(requestSlot := None)   // the reset threw; ignored
    case CustomContextAccessor => CustomContext.ClearSpec(s.(customSlot := None))
  }

  /** setValue on a thread */
  method SetValue(a: Accessor, th: ThreadLocals, v: Option<CtxValue>) returns (o: Outcome<ContextError>)
    modifies th
    ensures th.View() == SetState(a, v, old(th.View()))
    ensures o == SetOutcome(a, v)
  {
    if v.Some? && !Accepts(a, v.value) {
      return Fail(ClassCast);
    }
    o := Pass;
    match a
    case HeaderContextAccessor =>
      th.headerSlot := if v.Some? then Some(v.value.m) else None;
    case MdcAccessor =>
      th.mdcSlot := if v.Some? then Some(v.value.m) else None;
      if v.Some? {
        th.mdc := Some(v.value.m);
      }
    case LocaleContextAccessor =>
      th.localeSlot := if v.Some? then Some(v.value.lc) else None;
      if v.Some? {
        th.localeHolder := Some(v.value.lc);
      }
    case RequestAttributesAccessor =>
      th.requestSlot := if v.Some? then Some(v.value.ra) else None;
      if v.Some? && th.requestHolderFault.None? {
        th.requestHolder := Some(v.value.ra);
      }
    case CustomContextAccessor =>
      th.customSlot := if v.Some? then Some(v.value.cm) else None;
      if v.Some? {
        CustomContext.SetContextHolderMap(th, v.value.cm);
      }
  }

  /** clear on a thread */
  method Clear(a: Accessor, th: ThreadLocals)
    modifies th
    ensures th.View() == ClearState(a, old(th.View()))
  {
    match a
    case HeaderContextAccessor =>
      th.headerSlot := None;
    case MdcAccessor =>
      th.mdcSlot := None;
      th.mdc := None;
    case LocaleContextAccessor =>
      th.localeSlot := None;
      th.localeHolder := None;
    case RequestAttributesAccessor =>
      th.requestSlot := None;
      if th.requestHolderFault.None? {
        th.requestHolder := None;
      }
    case CustomContextAccessor =>
      th.customSlot := None;
      CustomContext.Clear(th);
  }

  // ---- the accessor contract ----

  /** A value of the accessor's type set on a thread is what getValue then returns. */
  lemma SetThenGet(a: Accessor, v: CtxValue, s: Locals)
    requires Accepts(a, v)
    ensures Get(a, SetState(a, Some(v), s)) == Success(Some(v))
  {
  }

  /** setValue(null) empties the slot and leaves the platform holder alone; for the header accessor getValue is then null. */
  lemma SetNullOnlyEmptiesSlot(a: Accessor, s: Locals)
    ensures Slot(a, SetState(a, None, s)) == None
    ensures Ambient(a, SetState(a, None, s)) == Ambient(a, s)
    ensures a == HeaderContextAccessor ==> Get(a, SetState(a, None, s)) == Success(None)
  {
  }

  /** After clear, getValue is null, except that the custom accessor yields an empty map and a throwing RequestContextHolder still throws. */
  lemma ClearThenGet(a: Accessor, s: Locals)
    ensures a != RequestAttributesAccessor && a != CustomContextAccessor ==> Get(a, ClearState(a, s)) == Success(None)
    ensures a == RequestAttributesAccessor && s.requestHolderFault != Some(RuntimeFault) ==>
              Get(a, ClearState(a, s)) == Success(None)
    ensures a == RequestAttributesAccessor && s.requestHolderFault == Some(RuntimeFault) ==>
              Get(a, ClearState(a, s)) == Failure(HolderFailure)
    ensures a == CustomContextAccessor ==> Get(a, ClearState(a, s)) == Success(Some(CustomValues(map[])))
  {
  }

  /** clear is idempotent. */
  lemma ClearIsIdempotent(a: Accessor, s: Locals)
    ensures ClearState(a, ClearState(a, s)) == ClearState(a, s)
  {
  }
}

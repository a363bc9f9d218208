/**
 * The platform facilities the core reads and writes: Java objects, SLF4J's MDC,
 * Spring's LocaleContext, a RequestContextHolder that can throw, String.toLowerCase,
 * and the exceptions the core raises or catches.
 */
module Platform {
  import opened Wrappers

  /** A Java object reference stored as a custom-context value or a request attribute. */
  datatype Obj = Null | Str(s: string) | Opaque(id: nat)

  /** Spring's LocaleContext (a locale and a time zone), opaque here. */
  datatype LocaleContext = LocaleContext(tag: string)

  /** How RequestContextHolder fails on this thread when it fails at all. */
  datatype HolderFault = IllegalStateFault | RuntimeFault

  /** The exceptions of the core. */
  datatype ContextError =
    | IllegalState            // IllegalStateException: CustomContext.init called twice
    | ContextNotInitialized   // ContextNotInitializedException
    | IllegalArgument         // IllegalArgumentException: null or empty key
    | NullPointer             // NullPointerException
    | ClassCast               // ClassCastException
    | HolderFailure           // an exception thrown by RequestContextHolder
    | TaskFailure             // an exception thrown by a submitted task

  /** A thread's MDC context map; None when the thread has none (getCopyOfContextMap yields null). */
  type MdcMap = Option<map<string, string>>

  /** MDC.get */
  function MdcGet(m: MdcMap, k: string): (r: Option<string>)
    ensures r.Some? <==> m.Some? && k in m.value
    ensures r.Some? ==> r.value == m.value[k]
  {
    if m.Some? && k in m.value then Some(m.value[k]) else None
  }

  /** MDC.put: creates the thread's map when there is none. */
  function MdcPut(m: MdcMap, k: string, v: string): (r: MdcMap)
    ensures r.Some? && MdcGet(r, k) == Some(v)
    ensures forall j :: j != k ==> MdcGet(r, j) == MdcGet(m, j)
  {
    Some(m.GetOr(map[])[k := v])
  }

  /** MDC.remove: no effect on a thread without a map. */
  function MdcRemove(m: MdcMap, k: string): (r: MdcMap)
    ensures r.Some? == m.Some?
    ensures MdcGet(r, k) == None
    ensures forall j :: j != k ==> MdcGet(r, j) == MdcGet(m, j)
  {
    if m.Some? then Some(m.value - {k}) else None
  }

  /** Character.toLowerCase on the ASCII letters; every other character is kept. */
  function LowerChar(c: char): (r: char)
    ensures 'A' <= c <= 'Z' ==> r != c
    ensures !('A' <= c <= 'Z') ==> r == c
    ensures !('A' <= r <= 'Z')
  {
    if 'A' <= c <= 'Z' then (c as int - 'A' as int + 'a' as int) as char else c
  }

  /** String.toLowerCase, character by character. */
  function Lower(s: string): (r: string)
    ensures |r| == |s|
    ensures forall i :: 0 <= i < |s| ==> r[i] == LowerChar(s[i])
  {
    if s == [] then [] else [LowerChar(s[0])] + Lower(s[1..])
  }

  /** A string is lower case when lower-casing leaves it unchanged. */
  predicate IsLower(s: string) {
    forall i :: 0 <= i < |s| ==> !('A' <= s[i] <= 'Z')
  }

  /** Lower-casing yields a lower-case string, and lower-casing it again changes nothing. */
  lemma LowerIsIdempotent(s: string)
    ensures IsLower(Lower(s))
    ensures Lower(Lower(s)) == Lower(s)
  {
    var l := Lower(s);
    assert forall i :: 0 <= i < |l| ==> Lower(l)[i] == l[i];
  }

  /** Exactly the lower-case strings are fixed points of Lower. */
  lemma LowerFixesExactlyLowerCase(s: string)
    ensures Lower(s) == s <==> IsLower(s)
  {
    if IsLower(s) {
      assert forall i :: 0 <= i < |s| ==> Lower(s)[i] == s[i];
    } else {
      var i :| 0 <= i < |s| && 'A' <= s[i] <= 'Z';
      assert Lower(s)[i] != s[i];
    }
  }
}

/**
 * Request attributes: the live servlet attributes of an in-flight request, and
 * DetachedRequestAttributes, a self-contained copy usable on other threads,
 * together with the minimal stand-in request that carries the inbound headers.
 */
module DetachedRequest {
  import opened Wrappers
  import opened Platform

  /** RequestAttributes.SCOPE_REQUEST; every other scope value is treated alike. */
  const SCOPE_REQUEST: int := 0

  /** The live ServletRequestAttributes of a request: its session id and request-scope attributes. */
  datatype ServletRequestAttributes = ServletRequestAttributes(sessionId: string, requestAttributes: map<string, Obj>)

  /** What RequestContextHolder and the request-attributes accessor hold. */
  datatype RequestAttributes =
    | Live(live: ServletRequestAttributes)
    | Detached(detached: DetachedRequestAttributes)
    | NonServlet(id: nat)   // any other RequestAttributes implementation

  /** `instanceof ServletRequestAttributes`; DetachedRequestAttributes extends it. */
  predicate IsServletRequestAttributes(ra: RequestAttributes) {
    ra.Live? || ra.Detached?
  }

  /** Attribute lookup of the detached copy: by the lower-cased name, request scope only. */
  function LookupAttribute(attributes: map<string, Obj>, name: string, scope: int): (r: Obj)
    ensures scope != SCOPE_REQUEST ==> r == Null
    ensures scope == SCOPE_REQUEST && Lower(name) !in attributes ==> r == Null
    ensures scope == SCOPE_REQUEST && Lower(name) in attributes ==> r == attributes[Lower(name)]
  {
    if scope == SCOPE_REQUEST && Lower(name) in attributes then attributes[Lower(name)] else Null
  }

  /** getSessionId of a servlet request-attributes object. */
  function SessionIdOf(ra: RequestAttributes): string
    requires IsServletRequestAttributes(ra)
    reads if ra.Detached? then {ra.detached} else {}
  {
    if ra.Live? then ra.live.sessionId else ra.detached.sessionId
  }

  /** getAttributeNames(SCOPE_REQUEST) of a servlet request-attributes object. */
  function RequestAttributeNames(ra: RequestAttributes): set<string>
    requires IsServletRequestAttributes(ra)
    reads if ra.Detached? then {ra.detached} else {}
  {
    if ra.Live? then ra.live.requestAttributes.Keys else ra.detached.attributeMap.Keys
  }

  /** getAttribute(name, SCOPE_REQUEST) of a servlet request-attributes object. */
  function RequestAttribute(ra: RequestAttributes, name: string): Obj
    requires IsServletRequestAttributes(ra)
    reads if ra.Detached? then {ra.detached} else {}
  {
    if ra.Live? then
      (if name in ra.live.requestAttributes then ra.live.requestAttributes[name] else Null)
    else LookupAttribute(ra.detached.attributeMap, name, SCOPE_REQUEST)
  }

  /** What the constructor's loop copies out of `original`: every name with the value read under it. */
  function CopiedAttributes(original: RequestAttributes): map<string, Obj>
    requires IsServletRequestAttributes(original)
    reads if original.Detached? then {original.detached} else {}
  {
    map n | n in RequestAttributeNames(original) :: RequestAttribute(original, n)
  }

  /** Copying a live request keeps every attribute under its original name with its value. */
  lemma CopyOfLiveIsExact(live: ServletRequestAttributes)
    ensures CopiedAttributes(Live(live)) == live.requestAttributes
  {
  }

  /** The stand-in HttpServletRequest: a copy of the inbound header map. */
  datatype MinimalHttpServletRequest = MinimalHttpServletRequest(headers: map<string, string>) {

    /** getHeader: the value stored under the lower-cased name, or null. */
    function GetHeader(name: string): (r: Option<string>)
      ensures r.Some? <==> Lower(name) in headers
      ensures r.Some? ==> r.value == headers[Lower(name)]
    {
      if Lower(name) in headers then Some(headers[Lower(name)]) else None
    }

    /** getHeaders: the one value getHeader finds, or nothing. */
    function GetHeaders(name: string): (r: seq<string>)
      ensures |r| <= 1
      ensures r == [] <==> GetHeader(name).None?
      ensures r != [] ==> r[0] == GetHeader(name).value
    {
      var v := GetHeader(name);
      if v.Some? then [v.value] else []
    }
  }

  /** The MinimalHttpServletRequest constructor: a null header map becomes an empty one. */
  function NewMinimalRequest(headers: Option<map<string, string>>): (r: MinimalHttpServletRequest)
    ensures headers.None? ==> r.headers == map[]
    ensures headers.Some? ==> r.headers == headers.value
  {
    MinimalHttpServletRequest(headers.GetOr(map[]))
  }

  /**
   * A header stored under a name with an upper-case letter is never returned by
   * getHeader, whatever name is asked for: the query is lower-cased, the stored names are not.
   */
  lemma MixedCaseHeaderIsUnreachable(r: MinimalHttpServletRequest, stored: string, name: string)
    requires stored in r.headers && !IsLower(stored)
    ensures r.GetHeader(name) == MinimalHttpServletRequest(r.headers - {stored}).GetHeader(name)
  {
  }

  /** A copy of request attributes that no longer depends on the live request. */
  class DetachedRequestAttributes {
    var attributeMap: map<string, Obj>
    const sessionId: string
    const request: MinimalHttpServletRequest

    /** Copies the session id and every request-scope attribute of `original`, and the headers. */
    constructor (original: RequestAttributes, headers: Option<map<string, string>>)
      requires IsServletRequestAttributes(original)
      ensures sessionId == SessionIdOf(original)
      ensures attributeMap == CopiedAttributes(original)
      ensures request == NewMinimalRequest(headers)
    {
      request := NewMinimalRequest(headers);
      sessionId := SessionIdOf(original);
      var names := RequestAttributeNames(original);
      var copy: map<string, Obj> := map[];
      while names != {}
        invariant names <= RequestAttributeNames(original)
        invariant copy == map n | n in RequestAttributeNames(original) - names :: RequestAttribute(original, n)
        decreases names
      {
        var name :| name in names;
        copy := copy[name := RequestAttribute(original, name)];
        names := names - {name};
      }
      attributeMap := copy;
    }

    /** getAttribute: the value stored under the lower-cased name, request scope only. */
    function GetAttribute(name: string, scope: int): (r: Obj)
      reads this
      ensures scope != SCOPE_REQUEST ==> r == Null
      ensures scope == SCOPE_REQUEST && Lower(name) in attributeMap ==> r == attributeMap[Lower(name)]
      ensures r != Null ==> Lower(name) in attributeMap && attributeMap[Lower(name)] == r
    {
      LookupAttribute(attributeMap, name, scope)
    }

    /** setAttribute: stores under the lower-cased name, request scope only. */
    method SetAttribute(name: string, value: Obj, scope: int)
      modifies this
      ensures scope == SCOPE_REQUEST ==> attributeMap == old(attributeMap)[Lower(name) := value]
      ensures scope != SCOPE_REQUEST ==> attributeMap == old(attributeMap)
      ensures scope == SCOPE_REQUEST ==>
        forall m :: Lower(m) == Lower(name) ==> GetAttribute(m, SCOPE_REQUEST) == value
    {
      if scope == SCOPE_REQUEST {
        attributeMap := attributeMap[Lower(name) := value];
      }
    }

    /** removeAttribute: deletes the lower-cased name, request scope only. */
    method RemoveAttribute(name: string, scope: int)
      modifies this
      ensures scope == SCOPE_REQUEST ==> attributeMap == old(attributeMap) - {Lower(name)}
      ensures scope != SCOPE_REQUEST ==> attributeMap == old(attributeMap)
      ensures GetAttribute(name, scope) == Null
    {
      if scope == SCOPE_REQUEST {
        attributeMap := attributeMap - {Lower(name)};
      }
    }

    /** getAttributeNames: the stored names for request scope, none otherwise. */
    function GetAttributeNames(scope: int): (names: set<string>)
      reads this
      ensures scope == SCOPE_REQUEST ==> names == attributeMap.Keys
      ensures scope != SCOPE_REQUEST ==> names == {}
    {
      if scope == SCOPE_REQUEST then attributeMap.Keys else {}
    }

    /** getSessionId: the id captured at construction. */
    function GetSessionId(): string {
      sessionId
    }
  }

  /**
   * An attribute of the live request whose name is already lower-case reads back from
   * the copy with the same value; the copy is a value, independent of the live request.
   */
  lemma DetachedCopyKeepsLowerCaseAttribute(live: ServletRequestAttributes, name: string)
    requires name in live.requestAttributes && IsLower(name)
    ensures LookupAttribute(CopiedAttributes(Live(live)), name, SCOPE_REQUEST) == live.requestAttributes[name]
  {
    LowerFixesExactlyLowerCase(name);
    CopyOfLiveIsExact(live);
  }

  /**
   * An attribute stored under a name with an upper-case letter (as the constructor copies it)
   * has no influence on any getAttribute: the lookups are those of the map without it.
   */
  lemma MixedCaseAttributeIsUnreachable(attributes: map<string, Obj>, stored: string, name: string, scope: int)
    requires stored in attributes && !IsLower(stored)
    ensures LookupAttribute(attributes, name, scope) == LookupAttribute(attributes - {stored}, name, scope)
  {
  }
}

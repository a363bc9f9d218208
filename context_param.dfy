/** The enumerated keys of the custom context (ContextParamDefault). */
module ContextParam {

  datatype ContextParamDefault = REQUEST_ID | CORRELATION_ID | X_TRAFFIC_TYPE | X_TRAFFIC_COLOR

  /** The Java classes a parameter can declare as its value type. */
  datatype JavaClass = StringClass | ObjectClass

  /** Every constant of the enum, in declaration order. */
  const AllParams: seq<ContextParamDefault> := [REQUEST_ID, CORRELATION_ID, X_TRAFFIC_TYPE, X_TRAFFIC_COLOR]

  /** The string each constant was constructed with. */
  function ParamKey(p: ContextParamDefault): (k: string)
    ensures |k| > 0
    ensures p == REQUEST_ID ==> k == "REQUEST_ID"
    ensures p == CORRELATION_ID ==> k == "CORRELATION_ID"
    ensures p == X_TRAFFIC_TYPE ==> k == "x-traffic-type"
    ensures p == X_TRAFFIC_COLOR ==> k == "x-traffic-color"
  {
    match p
    case REQUEST_ID => "REQUEST_ID"
    case CORRELATION_ID => "CORRELATION_ID"
    case X_TRAFFIC_TYPE => "x-traffic-type"
    case X_TRAFFIC_COLOR => "x-traffic-color"
  }

  /** The declared value type; String for every constant. */
  function ContextType(p: ContextParamDefault): (c: JavaClass)
    ensures c == StringClass
  {
    StringClass
  }

  /** The enum has exactly the four constants, each listed once. */
  lemma ExactlyFourParams(p: ContextParamDefault)
    ensures p in AllParams
    ensures |AllParams| == 4
    ensures forall i, j :: 0 <= i < j < |AllParams| ==> AllParams[i] != AllParams[j]
  {
  }

  /** Distinct constants have distinct keys, so a key names exactly one constant. */
  lemma ParamKeyInjective(p: ContextParamDefault, q: ContextParamDefault)
    ensures ParamKey(p) == ParamKey(q) <==> p == q
  {
  }
}

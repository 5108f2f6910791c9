/**
 * The five JSON-RPC methods MoleQueue speaks and the codes the dispatchers
 * use for them (the MethodType enumerations of molequeue/clientjsonrpc.h and
 * molequeue/serverjsonrpc.h), plus the three sentinel codes of the JSON-RPC
 * base class.
 */
module RpcMethods {

  datatype RpcMethod = ListQueues | SubmitJob | CancelJob | LookupJob | JobStateChanged

  /** The result of guessing a packet's method. */
  datatype MethodCode =
    | Known(m: RpcMethod)
    | IgnoreMethod        // a reply that is not addressed to this peer
    | InvalidMethod       // no usable method and no id
    | UnrecognizedMethod  // a method name nobody handles

  /** The name of each method on the wire. */
  function WireName(m: RpcMethod): string {
    match m
    case ListQueues => "listQueues"
    case SubmitJob => "submitJob"
    case CancelJob => "cancelJob"
    case LookupJob => "lookupJob"
    case JobStateChanged => "jobStateChanged"
  }

  /**
   * mapMethodNameToInt, the same in ClientJsonRpc and ServerJsonRpc: the
   * five known names map to their methods, anything else is unrecognized.
   */
  function MapMethodNameToInt(name: string): (c: MethodCode)
    ensures c.Known? ==> WireName(c.m) == name
    ensures c.Known? || c.UnrecognizedMethod?
  {
    if name == "listQueues" then Known(ListQueues)
    else if name == "submitJob" then Known(SubmitJob)
    else if name == "cancelJob" then Known(CancelJob)
    else if name == "lookupJob" then Known(LookupJob)
    else if name == "jobStateChanged" then Known(JobStateChanged)
    else UnrecognizedMethod
  }

  /** Every method's own name maps back to it, so distinct methods have distinct names. */
  lemma MapMethodNameRoundTrip(m: RpcMethod)
    ensures MapMethodNameToInt(WireName(m)) == Known(m)
  {
  }

  lemma WireNamesDistinct(m1: RpcMethod, m2: RpcMethod)
    requires m1 != m2
    ensures WireName(m1) != WireName(m2)
  {
    MapMethodNameRoundTrip(m1);
    MapMethodNameRoundTrip(m2);
  }
}

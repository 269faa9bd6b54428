/** The DynamoDB DocumentClient as the handler uses it. The database itself is
    not modelled: the client is given, in order, the replies its calls will
    receive, and it records every request it is sent. */
module Store {
  import opened JsValues

  /** The five DocumentClient operations the handler calls. */
  datatype StoreOp = GetOp | PutOp | UpdateOp | DeleteOp | ScanOp

  /** One call: which operation, with which parameter object. */
  datatype Request = Request(op: StoreOp, params: Json)

  /** The settlement of one call's promise: rejected, or resolved with the
      response object. */
  datatype Reply = Failure | Success(data: Json)

  /** The reply the next call receives; a client with no replies left fails. */
  function NextReply(script: seq<Reply>): Reply {
    if script == [] then Failure else script[0]
  }

  /** The replies left after one call: fewer, unless none were left. */
  function AfterCall(script: seq<Reply>): (r: seq<Reply>)
    ensures script == [] ==> r == []
    ensures script != [] ==> r == script[1..] && |r| < |script|
  {
    if script == [] then [] else script[1..]
  }

  class DocumentClient {
    /** Every request sent so far, oldest first. */
    var sent: seq<Request>
    /** The replies the coming calls receive, in order. */
    var script: seq<Reply>

    constructor (replies: seq<Reply>)
      ensures sent == [] && script == replies
    {
      sent := [];
      script := replies;
    }

    /** Sends one request and awaits its reply. */
    method Call(op: StoreOp, params: Json) returns (reply: Reply)
      modifies this
      ensures sent == old(sent) + [Request(op, params)]
      ensures reply == NextReply(old(script))
      ensures script == AfterCall(old(script))
    {
      sent := sent + [Request(op, params)];
      reply := NextReply(script);
      script := AfterCall(script);
    }
  }
}

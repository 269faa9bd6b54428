/** The Lambda handler: it routes an API Gateway event to one operation on one
    of the two tables, runs it against the DocumentClient and settles with the
    response envelope. */
module Handler {
  import opened JsValues
  import opened Routing
  import opened Store
  import opened Envelope
  import opened Scan

  /** The fields of an API Gateway event the handler reads. `body` is what
      `JSON.parse(event.body)` yields, `None` when it throws. */
  datatype Event = Event(
    httpMethod: string,
    resourcePath: string,
    pathParameters: Json,
    queryStringParameters: Json,
    body: Option<Json>)

  /** The call the handler's switch makes, with its arguments evaluated. */
  datatype Action =
    | Fetch(collection: Collection, id: Json)
    | List(collection: Collection)
    | Put(collection: Collection, item: Json)
    | Patch(collection: Collection, id: Json, updateKey: Json, updateValue: Json)
    | Erase(collection: Collection, id: Json)
    | NotFound(resourcePath: string)

  /** The endpoint whose call an action is. */
  function Target(a: Action): Endpoint
    requires !a.NotFound?
  {
    match a
    case Fetch(c, _) => Endpoint(c, GetOne)
    case List(c) => Endpoint(c, GetAll)
    case Put(c, _) => Endpoint(c, Save)
    case Patch(c, _, _, _) => Endpoint(c, Modify)
    case Erase(c, _) => Endpoint(c, Remove)
  }

  /** Selects the case of the switch and evaluates its arguments: the path
      parameter `id` for a read, the parsed body for a save, the parsed body's
      `id`, `updateKey` and `updateValue` for an update, the query parameter
      `id` for a delete. Reading a property of `undefined` or `null`, or an
      unparsable body, throws. */
  function Decode(e: Event): (r: Result<Action>)
    ensures (r.Ok? && r.value.NotFound?) <==> Route(e.httpMethod, e.resourcePath).None?
    ensures r.Ok? && r.value.NotFound? ==> r.value.resourcePath == e.resourcePath
    ensures r.Ok? && !r.value.NotFound? ==> Route(e.httpMethod, e.resourcePath) == Some(Target(r.value))
  {
    match Route(e.httpMethod, e.resourcePath)
    case None => Ok(NotFound(e.resourcePath))
    case Some(ep) => DecodeFor(ep, e)
  }

  /** The arguments of the call made for endpoint `ep`. */
  function DecodeFor(ep: Endpoint, e: Event): Result<Action> {
    var c := ep.collection;
    match ep.operation
    case GetOne =>
      (match Get(e.pathParameters, "id")
       case Thrown => Thrown
       case Ok(id) => Ok(Fetch(c, id)))
    case GetAll => Ok(List(c))
    case Save =>
      (match e.body
       case None => Thrown
       case Some(item) => Ok(Put(c, item)))
    case Modify =>
      (match e.body
       case None => Thrown
       case Some(b) =>
         if Accessible(b) then Ok(Patch(c, Field(b, "id"), Field(b, "updateKey"), Field(b, "updateValue")))
         else Thrown)
    case Remove =>
      (match Get(e.queryStringParameters, "id")
       case Thrown => Thrown
       case Ok(id) => Ok(Erase(c, id)))
  }

  /** The module-level `requestBody` after handling `e`: a PATCH request whose
      body parses overwrites it with the parsed body. */
  function RequestBodyAfter(e: Event, previous: Json): Json {
    match Route(e.httpMethod, e.resourcePath)
    case Some(Endpoint(_, Modify)) => if e.body.Some? then e.body.value else previous
    case _ => previous
  }

  /** What handling a request does: how it settles, the store requests it
      sends and the replies it leaves unconsumed. */
  datatype Run = Run(outcome: Outcome, sent: seq<Request>, remaining: seq<Reply>)

  /** A read settles with the record found under `Item`, `undefined` there
      when the store has no such record. */
  function GetOutcome(reply: Reply): Outcome {
    match reply
    case Failure => ResolvedUndefined
    case Success(data) =>
      match Get(data, "Item")
      case Thrown => Rejected
      case Ok(item) => Resolved(BuildResponse(200, item))
  }

  function SaveOutcome(reply: Reply, item: Json): Outcome {
    if reply.Failure? then ResolvedUndefined else Resolved(BuildResponse(200, SaveBody(item)))
  }

  function DeleteOutcome(reply: Reply): Outcome {
    if reply.Failure? then ResolvedUndefined else Resolved(BuildResponse(200, DeleteBody(reply.data)))
  }

  function UpdateOutcome(reply: Reply): Outcome {
    if reply.Failure? then ResolvedUndefined else Resolved(BuildResponse(200, UpdateBody(reply.data)))
  }

  /** Running one action against the replies `script`. Only a listing makes
      more than one call, and every call consumes one reply; a response
      carries the JSON header and is a 404 exactly for an unrouted request;
      only a read and an update can still throw once the arguments are
      evaluated. */
  function Perform(a: Action, script: seq<Reply>): (r: Run)
    ensures !a.List? ==> |r.sent| <= 1 && r.remaining == (if r.sent == [] then script else AfterCall(script))
    ensures r.outcome.Resolved? ==>
      && r.outcome.response.headers == map[ContentType := ApplicationJson]
      && (r.outcome.response.statusCode == 404 <==> a.NotFound?)
    ensures r.outcome.Rejected? ==> a.Fetch? || a.Patch?
  {
    match a
    case NotFound(path) =>
      Run(Resolved(BuildResponse(404, Str(path))), [], script)
    case Fetch(c, id) =>
      Run(GetOutcome(NextReply(script)), [Request(GetOp, GetParams(c, id))], AfterCall(script))
    case List(c) =>
      var t := ScanRun(ScanParams(c), script, []);
      Run(Resolved(BuildResponse(200, ListBody(c, t.result))), t.sent, t.remaining)
    case Put(c, item) =>
      Run(SaveOutcome(NextReply(script), item), [Request(PutOp, PutParams(c, item))], AfterCall(script))
    case Patch(c, id, updateKey, updateValue) =>
      (match UpdateParams(c, id, updateKey, updateValue)
       case Thrown => Run(Rejected, [], script)
       case Ok(params) => Run(UpdateOutcome(NextReply(script)), [Request(UpdateOp, params)], AfterCall(script)))
    case Erase(c, id) =>
      Run(DeleteOutcome(NextReply(script)), [Request(DeleteOp, DeleteParams(c, id))], AfterCall(script))
  }

  /** Handling event `e` against the replies `script`. */
  function HandleSpec(e: Event, script: seq<Reply>): Run {
    HandleDecoded(Decode(e), script)
  }

  function HandleDecoded(d: Result<Action>, script: seq<Reply>): Run {
    match d
    case Thrown => Run(Rejected, [], script)
    case Ok(a) => Perform(a, script)
  }

  /** The handler rejects exactly when evaluating the switch's arguments
      throws, when an update's `updateKey` does not convert to a string, or
      when a read's reply cannot be read. */
  lemma RejectsExactly(e: Event, script: seq<Reply>)
    ensures HandleSpec(e, script).outcome.Rejected? <==>
      || Decode(e).Thrown?
      || (Decode(e).Ok? && Decode(e).value.Patch? && !Stringifiable(Decode(e).value.updateKey))
      || (Decode(e).Ok? && Decode(e).value.Fetch? && NextReply(script).Success?
          && !Accessible(NextReply(script).data))
  {
  }

  /** A routed event is handled as its endpoint's call. */
  lemma HandleRouted(e: Event, script: seq<Reply>, ep: Endpoint)
    requires Route(e.httpMethod, e.resourcePath) == Some(ep)
    ensures HandleSpec(e, script) == HandleDecoded(DecodeFor(ep, e), script)
  {
  }

  /** The store operation each endpoint calls. */
  function OpOf(op: Operation): StoreOp {
    match op
    case GetOne => GetOp
    case GetAll => ScanOp
    case Save => PutOp
    case Modify => UpdateOp
    case Remove => DeleteOp
  }

  /** A request outside the routing table is answered with 404 and the
      resource path as body, and touches no table. */
  lemma UnroutedIsNotFound(e: Event, script: seq<Reply>)
    requires Route(e.httpMethod, e.resourcePath).None?
    ensures var run := HandleSpec(e, script);
      && run.outcome.Resolved?
      && run.outcome.response.statusCode == 404
      && run.outcome.response.body == Str(e.resourcePath)
      && run.sent == [] && run.remaining == script
  {
  }

  /** Every response carries the JSON content type; its status is 404 exactly
      for requests outside the routing table and 200 for every other. */
  lemma ResponseStatus(e: Event, script: seq<Reply>)
    ensures var run := HandleSpec(e, script);
      run.outcome.Resolved? ==>
        && run.outcome.response.headers == map[ContentType := ApplicationJson]
        && (run.outcome.response.statusCode == 404 <==> Route(e.httpMethod, e.resourcePath).None?)
        && (run.outcome.response.statusCode == 200 <==> Route(e.httpMethod, e.resourcePath).Some?)
  {
  }

  /** Evaluating the arguments throws exactly when a read has no readable
      path parameters, a delete no readable query parameters, a save an
      unparsable body, or an update a body that is unparsable, `null` or
      absent; a thrown request settles by rejection and touches no table. */
  lemma DecodeThrows(e: Event, script: seq<Reply>)
    ensures Decode(e).Thrown? <==>
      match Route(e.httpMethod, e.resourcePath)
      case None => false
      case Some(Endpoint(_, op)) =>
        || (op == GetOne && !Accessible(e.pathParameters))
        || (op == Remove && !Accessible(e.queryStringParameters))
        || (op == Save && e.body.None?)
        || (op == Modify && (e.body.None? || !Accessible(e.body.value)))
    ensures Decode(e).Thrown? ==> HandleSpec(e, script) == Run(Rejected, [], script)
  {
  }

  /** Every request sent for endpoint `ep` goes to the table of its
      collection, with the operation bound to it; only a listing sends more
      than one. */
  lemma {:induction false} EndpointTargetsTable(ep: Endpoint, e: Event, script: seq<Reply>)
    ensures var run := HandleDecoded(DecodeFor(ep, e), script);
      && (ep.operation != GetAll ==> |run.sent| <= 1)
      && forall i :: 0 <= i < |run.sent| ==>
        && run.sent[i].op == OpOf(ep.operation)
        && Field(run.sent[i].params, "TableName") == Str(TableName(ep.collection))
  {
    if ep.operation == GetAll {
      var c := ep.collection;
      var run := HandleDecoded(DecodeFor(ep, e), script);
      assert run.sent == ScanRun(ScanParams(c), script, []).sent;
      forall i | 0 <= i < |run.sent|
        ensures run.sent[i].op == ScanOp && Field(run.sent[i].params, "TableName") == Str(TableName(c))
      {
        ScanStartKeyQuirk(ScanParams(c), script, [], i);
      }
    }
  }

  /** Every request a routed event sends goes to the table of the collection
      its path names, with the operation its method names. */
  lemma RequestsTargetRoutedTable(e: Event, script: seq<Reply>, ep: Endpoint)
    requires Route(e.httpMethod, e.resourcePath) == Some(ep)
    ensures var run := HandleSpec(e, script);
      forall i :: 0 <= i < |run.sent| ==>
        && run.sent[i].op == OpOf(ep.operation)
        && Field(run.sent[i].params, "TableName") == Str(TableName(ep.collection))
  {
    HandleRouted(e, script, ep);
    EndpointTargetsTable(ep, e, script);
  }

  /** An update whose `updateKey` converts to a string passes the parsed
      body's `id`, `updateKey` and `updateValue`, in that order, to the
      update call. */
  lemma PatchPassesBodyFields(e: Event, script: seq<Reply>, c: Collection, b: Json)
    requires Route(e.httpMethod, e.resourcePath) == Some(Endpoint(c, Modify))
    requires e.body == Some(b) && Accessible(b) && Stringifiable(Field(b, "updateKey"))
    ensures HandleSpec(e, script).sent ==
      [Request(UpdateOp, UpdateParams(c, Field(b, "id"), Field(b, "updateKey"), Field(b, "updateValue")).value)]
  {
  }

  /** An update whose `updateKey` does not convert to a string throws while
      its parameters are built: the handler rejects and calls nothing. */
  lemma PatchRejectsUnconvertibleKey(e: Event, script: seq<Reply>, c: Collection, b: Json)
    requires Route(e.httpMethod, e.resourcePath) == Some(Endpoint(c, Modify))
    requires e.body == Some(b) && Accessible(b) && !Stringifiable(Field(b, "updateKey"))
    ensures HandleSpec(e, script) == Run(Rejected, [], script)
  {
  }

  /** A successful read answers 200 with the record under `Item`, and
      `undefined` when there is none. */
  lemma GetReturnsItem(e: Event, script: seq<Reply>, c: Collection, data: Json)
    requires Route(e.httpMethod, e.resourcePath) == Some(Endpoint(c, GetOne))
    requires Accessible(e.pathParameters)
    requires NextReply(script) == Success(data) && Accessible(data)
    ensures var run := HandleSpec(e, script);
      && run.sent == [Request(GetOp, GetParams(c, Field(e.pathParameters, "id")))]
      && run.outcome == Resolved(BuildResponse(200, Field(data, "Item")))
  {
  }

  /** A successful save answers 200 with the SAVE envelope echoing the
      request body it stored. */
  lemma SaveEchoesBody(e: Event, script: seq<Reply>, c: Collection, item: Json)
    requires Route(e.httpMethod, e.resourcePath) == Some(Endpoint(c, Save))
    requires e.body == Some(item) && NextReply(script).Success?
    ensures var run := HandleSpec(e, script);
      && run.sent == [Request(PutOp, PutParams(c, item))]
      && run.outcome.Resolved?
      && run.outcome.response.statusCode == 200
      && Field(run.outcome.response.body, "Operation") == Str("SAVE")
      && Field(run.outcome.response.body, "Item") == item
  {
  }

  /** A successful delete answers 200 with the DELETE envelope holding the
      store's response, which carries the old record. */
  lemma DeleteReturnsStoreResponse(e: Event, script: seq<Reply>, c: Collection, data: Json)
    requires Route(e.httpMethod, e.resourcePath) == Some(Endpoint(c, Remove))
    requires Accessible(e.queryStringParameters)
    requires NextReply(script) == Success(data)
    ensures var run := HandleSpec(e, script);
      && run.sent == [Request(DeleteOp, DeleteParams(c, Field(e.queryStringParameters, "id")))]
      && run.outcome.Resolved?
      && run.outcome.response.statusCode == 200
      && Field(run.outcome.response.body, "Operation") == Str("DELETE")
      && Field(run.outcome.response.body, "Item") == data
  {
  }

  /** A successful update answers 200 with the UPDATE envelope holding the
      store's response, which carries the updated attributes. */
  lemma UpdateReturnsAttributes(e: Event, script: seq<Reply>, c: Collection, b: Json, data: Json)
    requires Route(e.httpMethod, e.resourcePath) == Some(Endpoint(c, Modify))
    requires e.body == Some(b) && Accessible(b) && Stringifiable(Field(b, "updateKey"))
    requires NextReply(script) == Success(data)
    ensures var run := HandleSpec(e, script);
      && run.outcome.Resolved?
      && run.outcome.response.statusCode == 200
      && Field(run.outcome.response.body, "Operation") == Str("UPDATE")
      && Field(run.outcome.response.body, "UpdatedAttributes") == data
  {
  }

  /** A failed store call on a read, save, update or delete is only logged:
      the handler settles with `undefined`. (An update whose key does not
      convert makes no call; see `PatchRejectsUnconvertibleKey`.) */
  lemma StoreFailureGivesUndefined(e: Event, script: seq<Reply>)
    requires Decode(e).Ok? && !Decode(e).value.NotFound? && !Decode(e).value.List?
    requires Decode(e).value.Patch? ==> Stringifiable(Decode(e).value.updateKey)
    requires NextReply(script) == Failure
    ensures HandleSpec(e, script).outcome == ResolvedUndefined
  {
  }

  /** A listing always answers 200: with every scanned record, in the order
      the scan returned them, under `giftCards` or `promoCodes`, or with that
      property `undefined` when a scan call failed. */
  lemma {:induction false} ListWrapsScan(c: Collection, script: seq<Reply>)
    ensures var run := Perform(List(c), script);
      var k := FirstStop(script);
      && run.outcome.Resolved?
      && run.outcome.response.statusCode == 200
      && (if k < |script| && Ends(script[k]) then
            SucceedUpTo(script, k + 1)
            && Field(run.outcome.response.body, ListField(c)) == Arr(ItemsOf(script, k + 1))
          else Field(run.outcome.response.body, ListField(c)) == Undefined)
  {
    var t := ScanRun(ScanParams(c), script, []);
    var body := ListBody(c, t.result);
    assert Perform(List(c), script).outcome == Resolved(BuildResponse(200, body));
    ScanSucceedsIff(ScanParams(c), script, []);
    if t.result.Some? {
      ScanFromEmpty(ScanParams(c), script);
    } else {
      assert Field(body, ListField(c)) == Undefined;
    }
  }

  /** The module instance: the DocumentClient it talks to and the
      module-level `requestBody` that update requests overwrite. */
  class Lambda {
    var requestBody: Json
    const dynamodb: DocumentClient

    constructor (client: DocumentClient)
      ensures dynamodb == client && requestBody == Undefined
    {
      dynamodb := client;
      requestBody := Undefined;
    }

    /** Routes `event` and settles as `HandleSpec` describes. */
    method Handler(event: Event) returns (response: Outcome)
      modifies this, dynamodb
      ensures var run := HandleSpec(event, old(dynamodb.script));
        && response == run.outcome
        && dynamodb.sent == old(dynamodb.sent) + run.sent
        && dynamodb.script == run.remaining
      ensures requestBody == RequestBodyAfter(event, old(requestBody))
    {
      var route := Route(event.httpMethod, event.resourcePath);
      if route.None? {
        response := Resolved(BuildResponse(404, Str(event.resourcePath)));
        return;
      }
      var c := route.value.collection;
      match route.value.operation {
        case GetOne =>
          var id := Get(event.pathParameters, "id");
          if id.Thrown? {
            response := Rejected;
          } else {
            response := GetRecord(c, id.value);
          }
        case GetAll =>
          response := GetAll(c);
        case Save =>
          if event.body.None? {
            response := Rejected;
          } else {
            response := SaveRecord(c, event.body.value);
          }
        case Modify =>
          if event.body.None? {
            response := Rejected;
          } else {
            requestBody := event.body.value;
            if !Accessible(requestBody) {
              response := Rejected;
            } else {
              response := ModifyRecord(c, Field(requestBody, "id"), Field(requestBody, "updateKey"),
                                       Field(requestBody, "updateValue"));
            }
          }
        case Remove =>
          var id := Get(event.queryStringParameters, "id");
          if id.Thrown? {
            response := Rejected;
          } else {
            response := DeleteRecord(c, id.value);
          }
      }
    }

    method GetRecord(c: Collection, id: Json) returns (response: Outcome)
      modifies dynamodb
      ensures var run := Perform(Fetch(c, id), old(dynamodb.script));
        && response == run.outcome
        && dynamodb.sent == old(dynamodb.sent) + run.sent
        && dynamodb.script == run.remaining
    {
      var reply := dynamodb.Call(GetOp, GetParams(c, id));
      if reply.Failure? {
        response := ResolvedUndefined;
      } else {
        var item := Get(reply.data, "Item");
        if item.Thrown? {
          response := Rejected;
        } else {
          response := Resolved(BuildResponse(200, item.value));
        }
      }
    }

    method GetAll(c: Collection) returns (response: Outcome)
      modifies dynamodb
      ensures var run := Perform(List(c), old(dynamodb.script));
        && response == run.outcome
        && dynamodb.sent == old(dynamodb.sent) + run.sent
        && dynamodb.script == run.remaining
    {
      var records := ScanDynamoRecords(ScanParams(c), []);
      response := Resolved(BuildResponse(200, ListBody(c, records)));
    }

    /** The recursion of the source as a loop: one scan call per iteration,
        the token written to `ExclusiveStartkey` of the same parameters. */
    method ScanDynamoRecords(scanParams: Json, itemArray: seq<Json>) returns (records: Option<seq<Json>>)
      requires scanParams.Obj?
      modifies dynamodb
      ensures var t := ScanRun(scanParams, old(dynamodb.script), itemArray);
        && records == t.result
        && dynamodb.sent == old(dynamodb.sent) + t.sent
        && dynamodb.script == t.remaining
    {
      var params, gathered := scanParams, itemArray;
      ghost var whole := ScanRun(scanParams, dynamodb.script, itemArray);
      ghost var issued: seq<Request> := [];
      while true
        invariant params.Obj?
        invariant dynamodb.sent == old(dynamodb.sent) + issued
        invariant whole == Resume(issued, ScanRun(params, dynamodb.script, gathered))
        decreases |dynamodb.script|
      {
        ghost var before, issuedBefore, paramsBefore, gatheredBefore := dynamodb.script, issued, params, gathered;
        var reply := dynamodb.Call(ScanOp, params);
        issued := issued + [Request(ScanOp, params)];
        if reply.Failure? {
          ScanStops(paramsBefore, before, gatheredBefore);
          records := None;
          return;
        }
        var items := Get(reply.data, "Items");
        if items.Thrown? {
          ScanStops(paramsBefore, before, gatheredBefore);
          records := None;
          return;
        }
        gathered := Concat(gathered, items.value);
        var token := Field(reply.data, "LastEvaluatedKey");
        if !Truthy(token) {
          ScanStops(paramsBefore, before, gatheredBefore);
          records := Some(gathered);
          return;
        }
        params := Assign(params, StartKeyField, token);
        ScanContinues(paramsBefore, before, gatheredBefore);
        ResumeTwice(issuedBefore, [Request(ScanOp, paramsBefore)], ScanRun(params, dynamodb.script, gathered));
      }
    }

    method SaveRecord(c: Collection, item: Json) returns (response: Outcome)
      modifies dynamodb
      ensures var run := Perform(Put(c, item), old(dynamodb.script));
        && response == run.outcome
        && dynamodb.sent == old(dynamodb.sent) + run.sent
        && dynamodb.script == run.remaining
    {
      var reply := dynamodb.Call(PutOp, PutParams(c, item));
      if reply.Failure? {
        response := ResolvedUndefined;
      } else {
        response := Resolved(BuildResponse(200, SaveBody(item)));
      }
    }

    method DeleteRecord(c: Collection, id: Json) returns (response: Outcome)
      modifies dynamodb
      ensures var run := Perform(Erase(c, id), old(dynamodb.script));
        && response == run.outcome
        && dynamodb.sent == old(dynamodb.sent) + run.sent
        && dynamodb.script == run.remaining
    {
      var reply := dynamodb.Call(DeleteOp, DeleteParams(c, id));
      if reply.Failure? {
        response := ResolvedUndefined;
      } else {
        response := Resolved(BuildResponse(200, DeleteBody(reply.data)));
      }
    }

    method ModifyRecord(c: Collection, id: Json, updateKey: Json, updateValue: Json) returns (response: Outcome)
      modifies dynamodb
      ensures var run := Perform(Patch(c, id, updateKey, updateValue), old(dynamodb.script));
        && response == run.outcome
        && dynamodb.sent == old(dynamodb.sent) + run.sent
        && dynamodb.script == run.remaining
    {
      var params := UpdateParams(c, id, updateKey, updateValue);
      if params.Thrown? {
        response := Rejected;
        return;
      }
      var reply := dynamodb.Call(UpdateOp, params.value);
      if reply.Failure? {
        response := ResolvedUndefined;
      } else {
        response := Resolved(BuildResponse(200, UpdateBody(reply.data)));
      }
    }
  }
}

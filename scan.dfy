/** The paginated scan behind both listing operations: scan calls are issued
    until a response carries no `LastEvaluatedKey`, and the `Items` of every
    response are concatenated in the order received. */
module Scan {
  import opened JsValues
  import opened Store

  /** The property the handler writes the continuation token to, spelled as
      in the handler, with a lower-case `k`. */
  const StartKeyField := "ExclusiveStartkey"
  /** The request parameter DynamoDB reads the continuation token from. */
  const DynamoStartKey := "ExclusiveStartKey"

  /** What a whole scan does: its result (`None` when it yields `undefined`),
      the requests it sends and the replies it leaves unconsumed. */
  datatype ScanTrace = ScanTrace(result: Option<seq<Json>>, sent: seq<Request>, remaining: seq<Reply>)

  /** The recursion of the handler's `scanDynamoRecords`, with scan
      parameters `params` and accumulator `acc`, against the replies `script`.
      A rejected call, or a response whose `Items` cannot be read, ends the
      scan with no value; the items gathered so far are dropped. */
  function ScanRun(params: Json, script: seq<Reply>, acc: seq<Json>): (r: ScanTrace)
    requires params.Obj?
    ensures r.sent != [] && r.sent[0] == Request(ScanOp, params)
    decreases |script|
  {
    var request := Request(ScanOp, params);
    if script == [] then ScanTrace(None, [request], [])
    else match script[0]
      case Failure => ScanTrace(None, [request], script[1..])
      case Success(data) =>
        match Get(data, "Items")
        case Thrown => ScanTrace(None, [request], script[1..])
        case Ok(items) =>
          var gathered := Concat(acc, items);
          var token := Field(data, "LastEvaluatedKey");
          if Truthy(token) then
            var rest := ScanRun(Assign(params, StartKeyField, token), script[1..], gathered);
            ScanTrace(rest.result, [request] + rest.sent, rest.remaining)
          else
            ScanTrace(Some(gathered), [request], script[1..])
  }

  /** A reply that the scan follows with another call. */
  predicate Continues(r: Reply) {
    r.Success? && Accessible(r.data) && Truthy(Field(r.data, "LastEvaluatedKey"))
  }

  /** A reply that completes the scan with a value. */
  predicate Ends(r: Reply) {
    r.Success? && Accessible(r.data) && !Truthy(Field(r.data, "LastEvaluatedKey"))
  }

  /** The continuation token of a reply. */
  function Token(r: Reply): Json
    requires r.Success?
  {
    Field(r.data, "LastEvaluatedKey")
  }

  /** The index of the first reply that does not continue the scan, or the
      number of replies when every one continues. */
  function FirstStop(script: seq<Reply>): (k: nat)
    ensures k <= |script|
    ensures forall i :: 0 <= i < k ==> Continues(script[i])
    ensures k < |script| ==> !Continues(script[k])
  {
    if script == [] || !Continues(script[0]) then 0 else 1 + FirstStop(script[1..])
  }

  /** The first `n` replies all resolved. */
  predicate SucceedUpTo(script: seq<Reply>, n: nat) {
    n <= |script| && forall i :: 0 <= i < n ==> script[i].Success?
  }

  /** The items of the first `n` responses, one after the other, each
      response's `Items` added as `concat` adds it. */
  function ItemsOf(script: seq<Reply>, n: nat): seq<Json>
    requires SucceedUpTo(script, n)
    decreases n
  {
    if n == 0 then [] else Spread(Field(script[0].data, "Items")) + ItemsOf(script[1..], n - 1)
  }

  /** A trace preceded by the requests `before`. */
  function Resume(before: seq<Request>, t: ScanTrace): ScanTrace {
    ScanTrace(t.result, before + t.sent, t.remaining)
  }

  lemma ResumeTwice(first: seq<Request>, second: seq<Request>, t: ScanTrace)
    ensures Resume(first, Resume(second, t)) == Resume(first + second, t)
  {
    assert first + (second + t.sent) == (first + second) + t.sent;
  }

  /** A reply that continues the scan hands the remaining replies to a scan
      with the token assigned and the items appended. */
  lemma ScanContinues(params: Json, script: seq<Reply>, acc: seq<Json>)
    requires params.Obj? && script != [] && Continues(script[0])
    ensures ScanRun(params, script, acc) ==
      Resume([Request(ScanOp, params)],
             ScanRun(Assign(params, StartKeyField, Token(script[0])), script[1..],
                     Concat(acc, Field(script[0].data, "Items"))))
  {
  }

  /** Any other reply ends the scan after one call, with a value only when
      it `Ends`. */
  lemma ScanStops(params: Json, script: seq<Reply>, acc: seq<Json>)
    requires params.Obj? && !(script != [] && Continues(script[0]))
    ensures ScanRun(params, script, acc) ==
      ScanTrace(if script != [] && Ends(script[0]) then Some(Concat(acc, Field(script[0].data, "Items"))) else None,
                [Request(ScanOp, params)], AfterCall(script))
  {
  }

  /** The scan yields a value exactly when the first reply that does not
      continue it is a readable response without a continuation token. A
      rejected call, a response without readable `Items`, or running out of
      replies before that yields nothing. */
  lemma {:induction false} ScanSucceedsIff(params: Json, script: seq<Reply>, acc: seq<Json>)
    requires params.Obj?
    ensures ScanRun(params, script, acc).result.Some? <==>
      FirstStop(script) < |script| && Ends(script[FirstStop(script)])
    decreases |script|
  {
    if script != [] && Continues(script[0]) {
      ScanContinues(params, script, acc);
      var tail := script[1..];
      ScanSucceedsIff(Assign(params, StartKeyField, Token(script[0])), tail,
                      Concat(acc, Field(script[0].data, "Items")));
      assert FirstStop(script) == 1 + FirstStop(tail);
    } else {
      ScanStops(params, script, acc);
    }
  }

  /** The first of `n` responses contributes its items ahead of the rest. */
  lemma ItemsOfStep(script: seq<Reply>, n: nat)
    requires 1 <= n && SucceedUpTo(script, n)
    ensures SucceedUpTo(script[1..], n - 1)
    ensures ItemsOf(script, n) == Spread(Field(script[0].data, "Items")) + ItemsOf(script[1..], n - 1)
  {
  }

  /** A scan that stops at its first reply with a value yields the
      accumulator followed by that reply's items. */
  lemma ScanValueAtStop(params: Json, script: seq<Reply>, acc: seq<Json>)
    requires params.Obj? && !(script != [] && Continues(script[0]))
    requires ScanRun(params, script, acc).result.Some?
    ensures FirstStop(script) == 0 < |script| && SucceedUpTo(script, 1)
    ensures ScanRun(params, script, acc).result.value == acc + ItemsOf(script, 1)
  {
    ScanStops(params, script, acc);
    ItemsOfStep(script, 1);
    assert ItemsOf(script[1..], 0) == [];
  }

  /** A reply that continues the scan puts its items ahead of those the rest
      of the scan collects. */
  lemma ScanValueStep(params: Json, script: seq<Reply>, acc: seq<Json>, rest: seq<Json>)
    requires params.Obj? && script != [] && Continues(script[0])
    requires FirstStop(script[1..]) < |script[1..]| && SucceedUpTo(script[1..], FirstStop(script[1..]) + 1)
    requires rest == ItemsOf(script[1..], FirstStop(script[1..]) + 1)
    ensures FirstStop(script) < |script| && SucceedUpTo(script, FirstStop(script) + 1)
    ensures Concat(acc, Field(script[0].data, "Items")) + rest == acc + ItemsOf(script, FirstStop(script) + 1)
  {
    var k := FirstStop(script[1..]);
    assert FirstStop(script) == 1 + k;
    ItemsOfStep(script, k + 2);
    var items := Spread(Field(script[0].data, "Items"));
    assert (acc + items) + rest == acc + (items + rest);
  }

  /** When the scan yields a value, it is the initial accumulator followed by
      the items of every response, in the order received. */
  lemma {:induction false} ScanValue(params: Json, script: seq<Reply>, acc: seq<Json>)
    requires params.Obj?
    requires ScanRun(params, script, acc).result.Some?
    ensures FirstStop(script) < |script| && SucceedUpTo(script, FirstStop(script) + 1)
    ensures ScanRun(params, script, acc).result.value == acc + ItemsOf(script, FirstStop(script) + 1)
    decreases |script|
  {
    if script == [] || !Continues(script[0]) {
      ScanValueAtStop(params, script, acc);
    } else {
      var tail := script[1..];
      var next := Assign(params, StartKeyField, Token(script[0]));
      var gathered := Concat(acc, Field(script[0].data, "Items"));
      ScanContinues(params, script, acc);
      ScanValue(next, tail, gathered);
      ScanValueStep(params, script, acc, ItemsOf(tail, FirstStop(tail) + 1));
    }
  }

  /** The listing's scan, which starts from an empty accumulator, yields
      exactly the items of the responses up to and including the one without
      a token. */
  lemma ScanFromEmpty(params: Json, script: seq<Reply>)
    requires params.Obj? && ScanRun(params, script, []).result.Some?
    ensures FirstStop(script) < |script| && SucceedUpTo(script, FirstStop(script) + 1)
    ensures ScanRun(params, script, []).result.value == ItemsOf(script, FirstStop(script) + 1)
  {
    ScanValue(params, script, []);
    var items := ItemsOf(script, FirstStop(script) + 1);
    assert [] + items == items;
  }

  /** The parameters of the i-th scan call: the initial ones for the first
      call, and afterwards the initial ones with `ExclusiveStartkey` set to
      the previous response's token. */
  function NthScanParams(params: Json, script: seq<Reply>, i: nat): Json
    requires params.Obj?
    requires i <= FirstStop(script)
  {
    if i == 0 then params else Assign(params, StartKeyField, Token(script[i - 1]))
  }

  /** The scan sends one call per reply it follows plus the call that stops
      it, each with the initial parameters changed only in `ExclusiveStartkey`,
      and consumes exactly the replies to those calls. */
  lemma {:induction false} ScanRequests(params: Json, script: seq<Reply>, acc: seq<Json>)
    requires params.Obj?
    ensures var t := ScanRun(params, script, acc); var k := FirstStop(script);
      && |t.sent| == k + 1
      && (forall i :: 0 <= i <= k ==> t.sent[i] == Request(ScanOp, NthScanParams(params, script, i)))
      && t.remaining == (if k < |script| then script[k + 1..] else [])
    decreases |script|
  {
    if script != [] && Continues(script[0]) {
      var data := script[0].data;
      var gathered := Concat(acc, Field(data, "Items"));
      var next := Assign(params, StartKeyField, Token(script[0]));
      ScanRequests(next, script[1..], gathered);
      var t := ScanRun(params, script, acc);
      var k := FirstStop(script);
      forall i | 0 < i <= k
        ensures t.sent[i] == Request(ScanOp, NthScanParams(params, script, i))
      {
        if i > 1 {
          AssignTwice(params, StartKeyField, Token(script[0]), Token(script[i - 1]));
        }
      }
    }
  }

  /** The token is written to `ExclusiveStartkey`, which is not the
      `ExclusiveStartKey` parameter DynamoDB reads: every call the scan sends
      carries the initial `TableName` and the initial `ExclusiveStartKey`
      (normally absent), so no call asks DynamoDB to resume after a token. */
  lemma ScanStartKeyQuirk(params: Json, script: seq<Reply>, acc: seq<Json>, i: nat)
    requires params.Obj? && i < |ScanRun(params, script, acc).sent|
    ensures ScanRun(params, script, acc).sent[i].op == ScanOp
    ensures Field(ScanRun(params, script, acc).sent[i].params, "TableName") == Field(params, "TableName")
    ensures Field(ScanRun(params, script, acc).sent[i].params, DynamoStartKey) == Field(params, DynamoStartKey)
  {
    ScanRequests(params, script, acc);
    assert StartKeyField[14] != DynamoStartKey[14];
  }
}

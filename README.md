# Gift-card and promo-code API handler, modelled in Dafny

The system is an AWS Lambda handler (`index.js`) behind API Gateway. It serves
two DynamoDB tables, `GiftCardTable` and `PromoCodeTable`. A `switch (true)`
matches each event's HTTP method and resource path against ten fixed pairs, five
per table:

- read one record;
- list all records;
- save a record;
- update one attribute of a record;
- delete a record.

Each matched pair calls the DocumentClient and wraps the outcome in a JSON
response envelope. Any other pair gets a 404. Listing follows DynamoDB's
pagination: it issues scan calls until a response has no `LastEvaluatedKey`, and
concatenates the `Items` of every response.

The model has six modules:

- `JsValues` (js_values.dfy) models JavaScript values and the parts of the
  language the handler relies on:
  - reading a property, which throws on `undefined`/`null`;
  - property assignment;
  - truthiness;
  - `Array.prototype.concat`;
  - the string conversion done by a template literal.
- `Routing` (routing.dfy) holds the six path constants and the two table names.
  It defines the switch as `Route` and the routing table as `Binding`.
- `Store` (store.dfy) models the DocumentClient as a class. The class is given
  the replies its calls will receive, in order, and it logs every request it is
  sent. The database itself is not modelled.
- `Envelope` (envelope.dfy) covers `buildResponse`, the SAVE/DELETE/UPDATE and
  listing payloads, the parameter objects of every call, and the spliced update
  expression.
- `Scan` (scan.dfy) holds `ScanRun`, which specifies the recursion of
  `scanDynamoRecords`, and the lemmas about the results and requests of a scan.
- `Handler` (handler.dfy) contains:
  - the decoding of an event into a call;
  - the pure specification `HandleSpec` of one invocation, with lemmas about it;
  - the class `Lambda`, which holds the module-level state (`requestBody`, the
    client). Its imperative methods follow the source's functions and are
    proved against `HandleSpec`/`Perform`/`ScanRun`. The recursive scan
    becomes a loop with an accumulator.

A handler invocation settles in one of three ways:

- `Resolved(response)`;
- `ResolvedUndefined`: a store call failed and the error was only logged, so the
  promise resolves to `undefined`;
- `Rejected`: a property read of `undefined`/`null`, `JSON.parse`, or the string
  conversion of an update's `updateKey` threw.

Three behaviours of the code are worth stating outright, and the model keeps
each of them:

- Every response has the single header `Content-Type: application/json`.
- A listing whose scan fails still answers 200, with `giftCards`/`promoCodes`
  left `undefined`. The scan helper swallows the error and returns `undefined`,
  and the caller wraps that in a 200 response.
- The scan token is written to `ExclusiveStartkey`, with a lower-case `k`.
  `ScanStartKeyQuirk` shows that no scan request ever carries DynamoDB's real
  `ExclusiveStartKey` parameter.

## Model

| member | source | states |
|---|---|---|
| `Routing.Route` | index.js:36-93 | when the switch selects an endpoint, that endpoint's bound (method, path) pair is exactly the request's |
| `Routing.RouteComplete` | index.js:38-89 | each of the ten (method, path) pairs of the table is routed to exactly the endpoint bound to it |
| `Routing.RouteExact` | index.js:36-93 | a request reaches endpoint e if and only if its (method, path) pair is the one bound to e |
| `Routing.PathsDistinct` | index.js:13-25 | the six path constants are pairwise distinct |
| `Routing.BindingInjective` | index.js:38-87 | no two endpoints share a (method, path) pair, so at most one case of the switch can fire |
| `Routing.RouteKeepsCollection` | index.js:38-89 | gift-card paths reach gift-card operations and promo-code paths reach promo-code operations |
| `Handler.UnroutedIsNotFound` | index.js:91-92 | a pair outside the table is answered with status 404 and the resource path as body, and no store call is made |
| `Handler.ResponseStatus` | index.js:322-330 | every response has the single header `Content-Type: application/json`; its status is 404 exactly for unrouted requests and 200 exactly for routed ones |
| `Handler.Decode` | index.js:36-89 | evaluating the switch gives the 404 case exactly for an unrouted pair, with the request's path; any other call it evaluates is the call of the endpoint the pair is routed to |
| `Handler.DecodeThrows` | index.js:38-89 | evaluating the switch's arguments throws exactly when a read lacks readable path parameters, a delete lacks readable query parameters, a save's body does not parse, or an update's body does not parse or is `null`; it then makes no store call |
| `Handler.EndpointTargetsTable` | index.js:98-318 | every request made for an endpoint goes to that collection's table with that operation's store call; only a listing makes more than one call |
| `Handler.RequestsTargetRoutedTable` | index.js:38-89 | every store request of a routed event goes to the table its path names, with the operation its method names |
| `Handler.PatchPassesBodyFields` | index.js:53-56 | an update whose `updateKey` converts to a string sends the parsed body's `id`, `updateKey` and `updateValue`, in that order, as the update call's key, expression and bound value |
| `Handler.PatchRejectsUnconvertibleKey` | index.js:189-200 | an update whose `updateKey` does not convert to a string throws while its parameters are built: the handler rejects and makes no store call |
| `Handler.RejectsExactly` | index.js:31-95 | the handler rejects exactly when evaluating the switch's arguments throws, when an update's `updateKey` does not convert, or when a read's reply cannot be read |
| `Handler.Perform` | index.js:98-318 | only a listing makes more than one store call, and each call consumes one reply; every response has the JSON header and is a 404 exactly for the unrouted case; after argument evaluation only a read or an update can still throw |
| `Handler.GetReturnsItem` | index.js:106-107 | a successful read answers 200 with the store's `Item`, which is `undefined` when there is no such record |
| `Handler.SaveEchoesBody` | index.js:149-155 | a successful save puts the parsed body as `Item` and answers 200 with `Operation: "SAVE"` and `Item` equal to that body |
| `Handler.DeleteReturnsStoreResponse` | index.js:171-177 | a successful delete answers 200 with `Operation: "DELETE"` and `Item` equal to the store's response |
| `Handler.UpdateReturnsAttributes` | index.js:202-208 | a successful update whose `updateKey` converts answers 200 with `Operation: "UPDATE"` and `UpdatedAttributes` equal to the store's response |
| `Handler.StoreFailureGivesUndefined` | index.js:108-110 | a failed store call on a read, save, update or delete is only logged, and the handler resolves to `undefined`; an update that reaches the store is one whose `updateKey` converts |
| `Handler.ListWrapsScan` | index.js:114-125 | a listing always answers 200. The list property holds every scanned item, in the order received, when the scan completes, and is `undefined` otherwise |
| `Handler.Lambda.constructor` | index.js:5-28 | the module starts with its DocumentClient and an unset `requestBody` |
| `Handler.Lambda.Handler` | index.js:31-95 | the response, the requests sent and the replies consumed are those of `HandleSpec`; `requestBody` is overwritten exactly by a PATCH whose body parses |
| `Handler.Lambda.GetRecord` | index.js:98-111 | sends one get with the table and `{id}` key, and settles as `Perform` specifies for a read |
| `Handler.Lambda.GetAll` | index.js:114-125 | scans from an empty accumulator and answers 200 with the result under the collection's list property |
| `Handler.Lambda.ScanDynamoRecords` | index.js:127-139 | the loop returns the result, sends the requests and consumes the replies of `ScanRun` |
| `Handler.Lambda.SaveRecord` | index.js:142-159 | sends one put with the record as `Item`, and settles as `Perform` specifies for a save |
| `Handler.Lambda.DeleteRecord` | index.js:162-181 | sends one delete with `ReturnValues: "ALL_OLD"`, and settles as `Perform` specifies for a delete |
| `Handler.Lambda.ModifyRecord` | index.js:189-212 | rejects without a call when `updateKey` does not convert; otherwise sends one update with the spliced expression and `ReturnValues: "UPDATED_NEW"`; settles as `Perform` specifies for an update |
| `Scan.ScanRun` | index.js:127-139 | the recursion of `scanDynamoRecords`; its first call is a scan with the given parameters (the lemmas below state what the whole scan does) |
| `Scan.FirstStop` | index.js:131-134 | the index of the first reply after which the scan makes no further call: every earlier reply continues it and that one does not |
| `Scan.ScanSucceedsIff` | index.js:129-138 | the scan yields a value if and only if the first non-continuing reply is a readable response without a token; a failed call discards everything gathered |
| `Scan.ScanValue` | index.js:129-135 | the value is the initial accumulator followed by the `Items` of every response, in the order received |
| `Scan.ScanFromEmpty` | index.js:119 | a listing's scan, started from `[]`, yields exactly the concatenated `Items` of the responses it read |
| `Scan.ScanRequests` | index.js:129-133 | one call per followed reply plus the stopping call. Call i uses the initial parameters with only `ExclusiveStartkey` set to the previous token, and exactly the replies to those calls are consumed |
| `Scan.ScanStartKeyQuirk` | index.js:132 | every scan request has the initial `TableName` and the initial `ExclusiveStartKey`; the token goes to the misspelled `ExclusiveStartkey` |
| `Envelope.BuildResponse` | index.js:322-330 | echoes the status code, sets exactly the header `Content-Type: application/json`, and carries the payload as body |
| `Envelope.SaveBody` | index.js:150-154 | the SAVE payload has exactly `Operation: "SAVE"`, `Message: "SUCCESS"` and `Item` equal to the request body |
| `Envelope.DeleteBody` | index.js:172-176 | the DELETE payload has exactly `Operation: "DELETE"`, `Message: "SUCCESS"` and `Item` equal to the store response |
| `Envelope.UpdateBody` | index.js:203-207 | the UPDATE payload has exactly `Operation: "UPDATE"`, `Message: "SUCCESS"` and `UpdatedAttributes` equal to the store response |
| `Envelope.ListBody` | index.js:120-122 | the listing payload has the single property `giftCards`/`promoCodes`, holding the scanned array, or `undefined` when the scan failed |
| `Envelope.UpdateExpression` | index.js:195 | building the expression throws exactly when converting `updateKey` to a string throws |
| `Envelope.UpdateExpressionSplicesKey` | index.js:195 | when `updateKey` converts, the expression is `set ` + String(updateKey) + ` = :value`, with the key spliced verbatim, so it can be recovered exactly from the expression |
| `Envelope.UpdateParamsShape` | index.js:190-200 | building the parameters throws exactly when `updateKey` does not convert; otherwise they name the table and the `id` key, use the expression `set <updateKey> = :value`, bind `:value` to `updateValue`, and ask for `UPDATED_NEW` |
| `JsValues.Get` | index.js:39-61 | a property read throws exactly on `undefined` and `null`, and otherwise yields the own property or `undefined` |
| `JsValues.ToString` | index.js:195 | `String(v)` as a template literal applies it succeeds exactly for the values of `Stringifiable`: not an object with an own `toString`, and not an array holding such a value |
| `JsValues.JoinElements` | index.js:195 | converting an array joins its elements and throws exactly when converting one of them throws |
| `JsValues.Decimal` | index.js:195 | the numeral of a number is made of digits and has no leading zero; it has more than one digit exactly from 10 on |
| `JsValues.DecimalDenotes` | index.js:195 | the numeral reads back as the number it was written for |
| `JsValues.Concat` | index.js:130 | `concat` keeps the accumulator as a prefix and appends the elements of an array, or any other value as one element |
| `JsValues.Assign` | index.js:132 | assigning a property sets that property and leaves every other property unchanged |
| `Store.DocumentClient.Call` | index.js:5 | a call logs its request and receives the next scripted reply; a client with no replies left fails |

## Left out

- DynamoDB itself: the replies of get, put, update, delete and scan come from a script. Creating, overwriting, reading back and updating records (what those calls do to the table) is therefore not modelled.
- `aws-sdk` configuration (region, client construction): it has no effect on the handler's logic.
- A client whose reply script has run out answers with a failure. This keeps every modelled scan finite. The source would keep paginating for as long as the store returned tokens.
- `console.log` / `console.error`: logging only.
- `JSON.parse` and `JSON.stringify`:
  - An event carries the result of parsing its body (`None` when parsing throws).
  - A response carries the value that would be serialized, not its serialization.
- `async`/`await`: every call is sequential. A rejected promise is a `Failure` reply, and a throw inside a handler settles the invocation as `Rejected`.
- The concurrency hazard of the module-level `requestBody`: it is a plain field of `Lambda`, overwritten by each PATCH.
- `event.requestContext` is assumed to exist. The model reads `resourcePath` directly, so the `TypeError` from a missing `requestContext` is not modelled.
- JavaScript values are reduced to what the handler touches:
  - numbers are integers;
  - object key order is not kept;
  - reading a built-in property of a string or array (such as `length`) yields `undefined`;
  - `Symbol.isConcatSpreadable` is ignored.
  The handler reads only fixed property names (`id`, `updateKey`, `updateValue`, `Item`, `Items`, `LastEvaluatedKey`), so the last two shortcuts do not change its behaviour. The first one does, for the string conversion of `updateKey` (next line).
- JsValues.ToString: formats numbers as integer numerals. JavaScript prints a number from 1e21 on in exponent form (`1e+21`), and a fractional `updateKey` such as `1.5` is not representable here. The conversion's throwing case, an own `toString` property, is modelled.
- `scanDynamoRecords` writes the token into the caller's `scanParams` object in place. The model passes the parameters by value. The object is local to the listing function, so nobody observes the mutation.
- Injection through `updateKey`: the model keeps the expression exactly as the source builds it. `UpdateExpressionSplicesKey` shows the key lands in the expression unescaped. What DynamoDB would then execute is not modelled.

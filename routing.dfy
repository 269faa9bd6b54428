/** The routing table of the handler: which (HTTP method, resource path) pairs
    select which operation on which of the two tables. */
module Routing {
  import opened JsValues

  /** The two record collections, each stored in its own DynamoDB table. */
  datatype Collection = GiftCards | PromoCodes

  /** The five operations offered on each collection. */
  datatype Operation = GetOne | GetAll | Save | Modify | Remove

  datatype Endpoint = Endpoint(collection: Collection, operation: Operation)

  const GiftTableName := "GiftCardTable"
  const PromoTableName := "PromoCodeTable"

  const GiftCardsPath := "/promotions/gift_cards"
  const GiftCardPath := "/promotions/gift_card"
  const GiftCardParamPath := "/promotions/gift_card/{id}"
  const PromoCodesPath := "/promotions/promo_codes"
  const PromoCodePath := "/promotions/promo_code"
  const PromoCodeParamPath := "/promotions/promo_code/{id}"

  function TableName(c: Collection): string {
    match c
    case GiftCards => GiftTableName
    case PromoCodes => PromoTableName
  }

  /** The path that lists the whole collection. */
  function ListPath(c: Collection): string {
    match c
    case GiftCards => GiftCardsPath
    case PromoCodes => PromoCodesPath
  }

  /** The path for creating, updating and deleting one record. */
  function ItemPath(c: Collection): string {
    match c
    case GiftCards => GiftCardPath
    case PromoCodes => PromoCodePath
  }

  /** The templated path for reading one record by id. */
  function ParamPath(c: Collection): string {
    match c
    case GiftCards => GiftCardParamPath
    case PromoCodes => PromoCodeParamPath
  }

  /** The (HTTP method, resource path) pair that the table binds to `e`. */
  function Binding(e: Endpoint): (string, string) {
    var c := e.collection;
    match e.operation
    case GetOne => ("GET", ParamPath(c))
    case GetAll => ("GET", ListPath(c))
    case Save => ("POST", ItemPath(c))
    case Modify => ("PATCH", ItemPath(c))
    case Remove => ("DELETE", ItemPath(c))
  }

  /** The case of the handler's `switch (true)` whose guard holds first, or
      `None` when the request reaches the default case. */
  function Route(httpMethod: string, resourcePath: string): (r: Option<Endpoint>)
    ensures r.Some? ==> Binding(r.value) == (httpMethod, resourcePath)
  {
    if httpMethod == "GET" && resourcePath == GiftCardParamPath then Some(Endpoint(GiftCards, GetOne))
    else if httpMethod == "GET" && resourcePath == GiftCardsPath then Some(Endpoint(GiftCards, GetAll))
    else if httpMethod == "POST" && resourcePath == GiftCardPath then Some(Endpoint(GiftCards, Save))
    else if httpMethod == "PATCH" && resourcePath == GiftCardPath then Some(Endpoint(GiftCards, Modify))
    else if httpMethod == "DELETE" && resourcePath == GiftCardPath then Some(Endpoint(GiftCards, Remove))
    else if httpMethod == "GET" && resourcePath == PromoCodeParamPath then Some(Endpoint(PromoCodes, GetOne))
    else if httpMethod == "GET" && resourcePath == PromoCodesPath then Some(Endpoint(PromoCodes, GetAll))
    else if httpMethod == "POST" && resourcePath == PromoCodePath then Some(Endpoint(PromoCodes, Save))
    else if httpMethod == "PATCH" && resourcePath == PromoCodePath then Some(Endpoint(PromoCodes, Modify))
    else if httpMethod == "DELETE" && resourcePath == PromoCodePath then Some(Endpoint(PromoCodes, Remove))
    else None
  }

  /** The six path constants are pairwise distinct. */
  lemma PathsDistinct()
    ensures GiftCardsPath != GiftCardPath && GiftCardsPath != GiftCardParamPath
    ensures GiftCardsPath != PromoCodesPath && GiftCardsPath != PromoCodePath
    ensures GiftCardsPath != PromoCodeParamPath
    ensures GiftCardPath != GiftCardParamPath && GiftCardPath != PromoCodesPath
    ensures GiftCardPath != PromoCodePath && GiftCardPath != PromoCodeParamPath
    ensures GiftCardParamPath != PromoCodesPath && GiftCardParamPath != PromoCodePath
    ensures GiftCardParamPath != PromoCodeParamPath
    ensures PromoCodesPath != PromoCodePath && PromoCodesPath != PromoCodeParamPath
    ensures PromoCodePath != PromoCodeParamPath
  {
    assert GiftCardsPath[12] != PromoCodePath[12];
    assert GiftCardPath[12] != PromoCodePath[12];
    assert GiftCardParamPath[12] != PromoCodeParamPath[12];
  }

  /** No two endpoints share a (method, path) pair, so at most one case of the
      switch can apply to a request. */
  lemma BindingInjective(e1: Endpoint, e2: Endpoint)
    ensures Binding(e1) == Binding(e2) ==> e1 == e2
  {
    PathsDistinct();
  }

  /** Every pair of the table reaches its own endpoint: the switch routes each
      of the ten bindings to exactly the operation bound to it. */
  lemma RouteComplete(e: Endpoint)
    ensures Route(Binding(e).0, Binding(e).1) == Some(e)
  {
    PathsDistinct();
  }

  /** A request is routed exactly when its pair is in the table, and then to
      the endpoint bound to that pair. */
  lemma RouteExact(httpMethod: string, resourcePath: string, e: Endpoint)
    ensures Route(httpMethod, resourcePath) == Some(e) <==> Binding(e) == (httpMethod, resourcePath)
  {
    RouteComplete(e);
  }

  /** Requests on the gift-card paths reach gift-card operations and requests
      on the promo-code paths reach promo-code operations. */
  lemma RouteKeepsCollection(httpMethod: string, resourcePath: string)
    ensures Route(httpMethod, resourcePath).Some? ==>
      (Route(httpMethod, resourcePath).value.collection == GiftCards <==>
        resourcePath in {GiftCardsPath, GiftCardPath, GiftCardParamPath})
  {
    PathsDistinct();
  }
}

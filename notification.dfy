/** The payload of a notification to the IOT service and the remote calls a task issues. */
module Notification {
  import opened Options

  /** A query parameter value: the configured additionalData holds numbers and strings. */
  datatype QueryValue = Num(n: int) | Text(s: string)

  type Query = map<string, QueryValue>

  const OrderIdKey: string := "orderid"

  /** The query of the POST to `tracks`: a copy of the input's additionalData with `orderid`
      set to the body of the GET `orders` response. When additionalData is missing the copy
      is `undefined` and setting `orderid` on it throws, so there is no query. */
  function BuildQuery(additionalData: Option<Query>, orderBody: string): (r: Option<Query>)
    ensures r.Some? <==> additionalData.Some?
    ensures r.Some? ==> r.value.Keys == additionalData.value.Keys + {OrderIdKey}
    ensures r.Some? ==> r.value[OrderIdKey] == Text(orderBody)
    ensures r.Some? ==> forall k :: k in additionalData.value && k != OrderIdKey ==> r.value[k] == additionalData.value[k]
  {
    match additionalData
    case None => None
    case Some(data) => Some(data[OrderIdKey := Text(orderBody)])
  }

  /** An empty order body is no reason to stop: the query is built all the same. */
  lemma EmptyOrderProceeds(additionalData: Query)
    ensures BuildQuery(Some(additionalData), "").Some?
    ensures BuildQuery(Some(additionalData), "").value[OrderIdKey] == Text("")
  {
  }

  /** A remote call to the IOT service. */
  datatype Request = GetOrders | PostTracks(query: Query)

  /** What the in-flight task waits for: the `orders` reply, or the `tracks` reply of the
      POST that carries `query`. */
  datatype Stage = AwaitingOrder | AwaitingTrack(query: Query)

  /** The call a task in this stage has outstanding. */
  function CallOf(stage: Stage): (r: Request)
    ensures stage.AwaitingOrder? <==> r.GetOrders?
    ensures stage.AwaitingTrack? ==> r == PostTracks(stage.query)
  {
    match stage
    case AwaitingOrder => GetOrders
    case AwaitingTrack(q) => PostTracks(q)
  }
}

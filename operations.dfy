/**
 * The public operations of Gatecoin::API. Each is split into what it sends (a
 * signed request built from its arguments) and what it makes of the reply (a
 * value or an exception). The transport is a function from request to reply, so
 * that an operation also says how many requests it issues.
 */
module Operations {
  import opened Values
  import opened Requests
  import Signing

  const Post: string := "POST"
  const Delete: string := "DELETE"

  /** What the transport hands back: a parsed body, or the message of a failure (HTTP status, connection, unparsable body). */
  datatype Reply = Parsed(body: Json) | Failed(message: string)

  /** The requests an operation issued, in order, and how it ended. */
  datatype Call<T> = Call(sent: seq<HttpRequest>, outcome: Outcome<T>)

  /** `v[key]` for a Hash `v`: the entry, or nil. */
  function Field(v: Json, key: string): Json
    requires v.Obj?
  {
    if key in v.fields then v.fields[key] else Null
  }

  /** The body of a reply, or the transport's exception. */
  function Received(reply: Reply): Outcome<Json> {
    match reply
    case Parsed(v) => Ok(v)
    case Failed(m) => Err(Raised(TransportError, Text(m)))
  }

  // ---------------------------------------------------------------------------
  // balances, order
  // ---------------------------------------------------------------------------

  /** `get('/Balance/Balances')['balances']`. */
  function BalancesResult(reply: Reply): (r: Outcome<Json>)
    ensures reply.Failed? ==> r == Err(Raised(TransportError, Text(reply.message)))
    ensures reply.Parsed? && reply.body.Obj? ==> r == Ok(Field(reply.body, "balances"))
  {
    match reply
    case Failed(m) => Err(Raised(TransportError, Text(m)))
    case Parsed(v) => Index(v, "balances")
  }

  function Balances(p: Signing.Primitives, c: Client, timestamp: string, send: HttpRequest -> Reply)
    : (r: Call<Json>)
    ensures r.sent == [Prepare(p, c, Signing.Get, BalancesPath, NoBody, timestamp)]
    ensures r.outcome == BalancesResult(send(r.sent[0]))
  {
    var req := Prepare(p, c, Signing.Get, BalancesPath, NoBody, timestamp);
    Call([req], BalancesResult(send(req)))
  }

  /** `order(id)`: the parsed body as it is. */
  function Order(p: Signing.Primitives, c: Client, id: string, timestamp: string, send: HttpRequest -> Reply)
    : (r: Call<Json>)
    ensures r.sent == [Prepare(p, c, Signing.Get, OrderPath(id), NoBody, timestamp)]
    ensures send(r.sent[0]).Parsed? ==> r.outcome == Ok(send(r.sent[0]).body)
    ensures send(r.sent[0]).Failed? ==> r.outcome == Err(Raised(TransportError, Text(send(r.sent[0]).message)))
  {
    var req := Prepare(p, c, Signing.Get, OrderPath(id), NoBody, timestamp);
    Call([req], Received(send(req)))
  }

  // ---------------------------------------------------------------------------
  // create_order
  // ---------------------------------------------------------------------------

  /** The check on a created order, before the rescue: the order if it has a true clOrderId. */
  function CreateOrderCheck(v: Json): (r: Outcome<Json>)
    ensures r.Ok? <==> Index(v, "clOrderId").Ok? && Truthy(Index(v, "clOrderId").value)
    ensures r.Ok? ==> r.value == v
    ensures r.Err? ==> r.error.cls in {CreateOrderException, NoMethodError, TypeError}
    ensures v.Obj? && !Truthy(Field(v, "clOrderId")) && !Truthy(Field(v, "responseStatus")) ==>
              r == Err(Raised(CreateOrderException, Shown(v)))
  {
    match Index(v, "clOrderId")
    case Err(e) => Err(e)
    case Ok(id) =>
      if Truthy(id) then Ok(v)
      else
        match Index(v, "responseStatus")
        case Err(e) => Err(e)
        case Ok(status) =>
          if !Truthy(status) then Err(Raised(CreateOrderException, MessageOf(v)))
          else
            match Index(status, "message")
            case Err(e) => Err(e)
            case Ok(message) =>
              Err(Raised(CreateOrderException, if Truthy(message) then MessageOf(message) else MessageOf(v)))
  }

  /**
   * What create_order makes of the reply to its POST. The order comes back
   * unchanged exactly when it carries a true clOrderId. Otherwise the exception is
   * a CreateOrderException carrying the status message when the status and its
   * message are both there, and the whole response otherwise. Every failure,
   * the transport's included, leaves as a CreateOrderException.
   */
  function CreateOrderResult(reply: Reply): (r: Outcome<Json>)
    ensures r.Err? ==> r.error.cls == CreateOrderException
    ensures r.Ok? <==> reply.Parsed? && Index(reply.body, "clOrderId").Ok? && Truthy(Index(reply.body, "clOrderId").value)
    ensures r.Ok? ==> r.value == reply.body
    ensures reply.Failed? ==> r == Err(Raised(CreateOrderException, Text(reply.message)))
    ensures reply.Parsed? && reply.body.Obj? && !Truthy(Field(reply.body, "clOrderId")) ==>
      var status := Field(reply.body, "responseStatus");
      && (!Truthy(status) ==> r.error.message == Shown(reply.body))
      && (status.Obj? && Truthy(Field(status, "message")) ==> r.error.message == MessageOf(Field(status, "message")))
      && (status.Obj? && !Truthy(Field(status, "message")) ==> r.error.message == Shown(reply.body))
      && (Truthy(status) && !status.Obj? && !status.Str? ==> r.error.message == Builtin)
  {
    Rescue(CreateOrderException, match reply
      case Failed(m) => Err(Raised(TransportError, Text(m)))
      case Parsed(v) => CreateOrderCheck(v))
  }

  /**
   * `create_order(side:, size:, price:, pair:)`. An unknown side fails before any
   * request; otherwise one POST of the order to /Trade/Orders.
   */
  function CreateOrder(p: Signing.Primitives, c: Client, side: Side, size: string, price: string, pair: string,
                       timestamp: string, send: HttpRequest -> Reply): (r: Call<Json>)
    ensures r.sent == [] <==> side.Other?
    ensures side.Other? ==> r.outcome == Err(Raised(CreateOrderException,
                              Text("Unknown side type " + side.name + ". Use :buy or :sell as symbols.")))
    ensures !side.Other? ==>
      var way := if side == Buy then "Bid" else "Ask";
      && r.sent == [Prepare(p, c, Post, OrdersPath, JsonBody(OrderPayload(pair, way, size, price)), timestamp)]
      && r.outcome == CreateOrderResult(send(r.sent[0]))
    ensures r.outcome.Err? ==> r.outcome.error.cls == CreateOrderException
  {
    match WayOf(side)
    case Err(e) => Call([], Rescue(CreateOrderException, Err(e)))
    case Ok(way) =>
      var req := Prepare(p, c, Post, OrdersPath, JsonBody(OrderPayload(pair, way, size, price)), timestamp);
      Call([req], CreateOrderResult(send(req)))
  }

  // ---------------------------------------------------------------------------
  // cancel_order, withdrawal
  // ---------------------------------------------------------------------------

  /**
   * The status check shared by cancel_order and withdrawal: the response
   * unless it carries a status whose errorCode is true, in which case `cls` with
   * the status message, or with the status itself when it has no true message.
   */
  function StatusCheck(cls: ErrorClass, v: Json): (r: Outcome<Json>)
    ensures r.Ok? ==> r.value == v
    ensures r.Err? ==> r.error.cls in {cls, NoMethodError, TypeError}
    ensures v.Obj? && !Truthy(Field(v, "responseStatus")) ==> r == Ok(v)
    ensures v.Obj? && Field(v, "responseStatus").Obj? ==>
      var status := Field(v, "responseStatus");
      && (r.Err? <==> Truthy(Field(status, "errorCode")))
      && (r.Err? ==> r.error == Raised(cls, if Truthy(Field(status, "message"))
                                              then MessageOf(Field(status, "message"))
                                              else Shown(status)))
  {
    match Index(v, "responseStatus")
    case Err(e) => Err(e)
    case Ok(status) =>
      if !Truthy(status) then Ok(v)
      else
        match Index(status, "errorCode")
        case Err(e) => Err(e)
        case Ok(code) =>
          if !Truthy(code) then Ok(v)
          else
            match Index(status, "message")
            case Err(e) => Err(e)
            case Ok(message) =>
              Err(Raised(cls, if Truthy(message) then MessageOf(message) else MessageOf(status)))
  }

  /** What cancel_order makes of the reply to its DELETE; every failure leaves as a CancelOrderException. */
  function CancelOrderResult(reply: Reply): (r: Outcome<Json>)
    ensures r.Err? ==> r.error.cls == CancelOrderException
    ensures reply.Failed? ==> r == Err(Raised(CancelOrderException, Text(reply.message)))
    ensures reply.Parsed? ==> (r.Ok? <==> StatusCheck(CancelOrderException, reply.body).Ok?)
    ensures reply.Parsed? && r.Ok? ==> r.value == reply.body
    ensures reply.Parsed? && r.Err? ==> r.error.message == StatusCheck(CancelOrderException, reply.body).error.message
  {
    Rescue(CancelOrderException, match reply
      case Failed(m) => Err(Raised(TransportError, Text(m)))
      case Parsed(v) => StatusCheck(CancelOrderException, v))
  }

  /** `cancel_order(id)`: one DELETE of /Trade/Orders/id. */
  function CancelOrder(p: Signing.Primitives, c: Client, id: string, timestamp: string, send: HttpRequest -> Reply)
    : (r: Call<Json>)
    ensures r.sent == [Prepare(p, c, Delete, OrderPath(id), NoBody, timestamp)]
    ensures r.outcome == CancelOrderResult(send(r.sent[0]))
  {
    var req := Prepare(p, c, Delete, OrderPath(id), NoBody, timestamp);
    Call([req], CancelOrderResult(send(req)))
  }

  /** What withdrawal makes of the reply to its POST; nothing is rescued, so a transport failure passes through. */
  function WithdrawalResult(reply: Reply): (r: Outcome<Json>)
    ensures reply.Failed? ==> r == Err(Raised(TransportError, Text(reply.message)))
    ensures reply.Parsed? ==> r == StatusCheck(WithdrawalException, reply.body)
  {
    match reply
    case Failed(m) => Err(Raised(TransportError, Text(m)))
    case Parsed(v) => StatusCheck(WithdrawalException, v)
  }

  /**
   * `withdrawal(currency:, address:, amount:, comment:, validation:)`: one POST
   * of the withdrawal payload to /ElectronicWallet/withdrawals/currency.
   */
  method Withdrawal(p: Signing.Primitives, c: Client, currency: string, address: Json, amount: Json,
                    comment: Json, validation: Json, timestamp: string, send: HttpRequest -> Reply)
    returns (r: Call<Json>)
    ensures |r.sent| == 1
    ensures r.sent[0].verb == Post && r.sent[0].url == c.url + WithdrawalPath(currency)
    ensures r.sent[0].headers == AuthHeaders(p, c, WithdrawalPath(currency), Post, timestamp)
    ensures r.sent[0].body.JsonBody?
    ensures r.sent[0].body.fields.Keys == {"AddressName", "Amount"}
                                          + (if Truthy(comment) then {"Comment"} else {})
                                          + (if Truthy(validation) then {"ValidationCode"} else {})
    ensures r.sent[0].body.fields["AddressName"] == address && r.sent[0].body.fields["Amount"] == amount
    ensures "Comment" in r.sent[0].body.fields ==> r.sent[0].body.fields["Comment"] == comment
    ensures "ValidationCode" in r.sent[0].body.fields ==> r.sent[0].body.fields["ValidationCode"] == validation
    ensures r.outcome == WithdrawalResult(send(r.sent[0]))
  {
    var opts := WithdrawalPayload(address, amount, comment, validation);
    var req := Prepare(p, c, Post, WithdrawalPath(currency), JsonBody(opts), timestamp);
    r := Call([req], WithdrawalResult(send(req)));
  }

  // ---------------------------------------------------------------------------
  // deposit_wallets
  // ---------------------------------------------------------------------------

  /**
   * What deposit_wallets makes of the reply to its GET: the addresses when they
   * are there, else `raise` of the status message, which is a RuntimeError
   * only when that message is a String.
   */
  function DepositWalletsResult(reply: Reply): (r: Outcome<Json>)
    ensures reply.Failed? ==> r == Err(Raised(TransportError, Text(reply.message)))
    ensures r.Ok? ==> reply.Parsed? && Truthy(r.value)
    ensures reply.Parsed? && reply.body.Obj? ==>
      var addresses := Field(reply.body, "addresses");
      var status := Field(reply.body, "responseStatus");
      && (Truthy(addresses) ==> r == Ok(addresses))
      && (!Truthy(addresses) && status.Obj? && Field(status, "message").Str? ==>
            r == Err(Raised(RuntimeError, Text(Field(status, "message").s))))
      && (!Truthy(addresses) && status.Obj? && !Field(status, "message").Str? ==>
            r == Err(Raised(TypeError, Builtin)))
      && (!Truthy(addresses) && status.Null? ==> r == Err(Raised(NoMethodError, Builtin)))
  {
    match reply
    case Failed(m) => Err(Raised(TransportError, Text(m)))
    case Parsed(v) =>
      match Index(v, "addresses")
      case Err(e) => Err(e)
      case Ok(addresses) =>
        if Truthy(addresses) then Ok(addresses)
        else
          match Index(v, "responseStatus")
          case Err(e) => Err(e)
          case Ok(status) =>
            match Index(status, "message")
            case Err(e) => Err(e)
            case Ok(message) => RaiseValue(message)
  }

  function DepositWallets(p: Signing.Primitives, c: Client, timestamp: string, send: HttpRequest -> Reply)
    : (r: Call<Json>)
    ensures r.sent == [Prepare(p, c, Signing.Get, DepositWalletsPath, NoBody, timestamp)]
    ensures r.outcome == DepositWalletsResult(send(r.sent[0]))
  {
    var req := Prepare(p, c, Signing.Get, DepositWalletsPath, NoBody, timestamp);
    Call([req], DepositWalletsResult(send(req)))
  }

  // ---------------------------------------------------------------------------
  // Every request is signed
  // ---------------------------------------------------------------------------

  /**
   * A request the exchange accepts as coming from client `c` at `timestamp`: its
   * URL is the base URL followed by a path, it carries that timestamp as its date,
   * and its signature checks out for its verb and that path.
   */
  ghost predicate SignedBy(p: Signing.Primitives, c: Client, timestamp: string, req: HttpRequest) {
    && |c.url| <= |req.url| && req.url[..|c.url|] == c.url
    && DateHeader in req.headers && req.headers[DateHeader] == timestamp
    && PublicKeyHeader in req.headers && req.headers[PublicKeyHeader] == c.key
    && Authentic(p, c.secret, c.url, req.verb, req.url[|c.url|..], req.headers)
  }

  lemma PreparedIsSigned(p: Signing.Primitives, c: Client, verb: string, path: string, body: Body, timestamp: string)
    requires Signing.EmitsBase64Alphabet(p)
    ensures SignedBy(p, c, timestamp, Prepare(p, c, verb, path, body, timestamp))
  {
    var req := Prepare(p, c, verb, path, body, timestamp);
    assert req.url[..|c.url|] == c.url && req.url[|c.url|..] == path;
    AuthHeadersAuthentic(p, c, path, verb, timestamp);
  }

  /** Every request that balances, order, create_order, cancel_order and deposit_wallets issue is signed. */
  lemma EveryRequestSigned(p: Signing.Primitives, c: Client, timestamp: string, id: string, side: Side,
                           size: string, price: string, pair: string, send: HttpRequest -> Reply)
    requires Signing.EmitsBase64Alphabet(p)
    ensures SignedBy(p, c, timestamp, Balances(p, c, timestamp, send).sent[0])
    ensures SignedBy(p, c, timestamp, Order(p, c, id, timestamp, send).sent[0])
    ensures !side.Other? ==> SignedBy(p, c, timestamp, CreateOrder(p, c, side, size, price, pair, timestamp, send).sent[0])
    ensures SignedBy(p, c, timestamp, CancelOrder(p, c, id, timestamp, send).sent[0])
    ensures SignedBy(p, c, timestamp, DepositWallets(p, c, timestamp, send).sent[0])
  {
    PreparedIsSigned(p, c, Signing.Get, BalancesPath, NoBody, timestamp);
    PreparedIsSigned(p, c, Signing.Get, OrderPath(id), NoBody, timestamp);
    PreparedIsSigned(p, c, Delete, OrderPath(id), NoBody, timestamp);
    PreparedIsSigned(p, c, Signing.Get, DepositWalletsPath, NoBody, timestamp);
    if !side.Other? {
      var way := if side == Buy then "Bid" else "Ask";
      PreparedIsSigned(p, c, Post, OrdersPath, JsonBody(OrderPayload(pair, way, size, price)), timestamp);
    }
  }

  // ---------------------------------------------------------------------------
  // Scenarios
  // ---------------------------------------------------------------------------

  /** An errorCode of 0 is true in Ruby: cancel_order and withdrawal both fail on it. */
  lemma ErrorCodeZeroFails(message: string)
    ensures var body := Obj(map["responseStatus" := Obj(map["errorCode" := Num(0), "message" := Str(message)])]);
      && CancelOrderResult(Parsed(body)) == Err(Raised(CancelOrderException, Text(message)))
      && WithdrawalResult(Parsed(body)) == Err(Raised(WithdrawalException, Text(message)))
  {
    var status := Obj(map["errorCode" := Num(0), "message" := Str(message)]);
    var body := Obj(map["responseStatus" := status]);
    assert Field(body, "responseStatus") == status;
    assert Field(status, "errorCode") == Num(0) && Field(status, "message") == Str(message);
  }
}

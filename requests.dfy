/**
 * Request shaping for Gatecoin::API: the client's credentials, the endpoint paths,
 * the order side, the order and withdrawal payloads, the four authentication
 * headers and the signed request handed to the transport.
 */
module Requests {
  import opened Values
  import Signing

  /** An API client: public key, secret key and base URL, fixed at construction. */
  datatype Client = Client(key: string, secret: string, url: string)

  // ---------------------------------------------------------------------------
  // Endpoint paths
  // ---------------------------------------------------------------------------

  const BalancesPath: string := "/Balance/Balances"
  const OrdersPath: string := "/Trade/Orders"
  const DepositWalletsPath: string := "/ElectronicWallet/DepositWallets"
  const WithdrawalsPath: string := "/ElectronicWallet/withdrawals"

  /** `"/Trade/Orders/#{id}"`, for looking an order up and for cancelling it. */
  function OrderPath(id: string): (path: string)
    ensures |path| == |OrdersPath| + 1 + |id|
    ensures path[..|OrdersPath| + 1] == OrdersPath + "/" && path[|OrdersPath| + 1..] == id
  {
    OrdersPath + "/" + id
  }

  /** `"/ElectronicWallet/withdrawals/#{currency}"`. */
  function WithdrawalPath(currency: string): (path: string)
    ensures |path| == |WithdrawalsPath| + 1 + |currency|
    ensures path[..|WithdrawalsPath| + 1] == WithdrawalsPath + "/" && path[|WithdrawalsPath| + 1..] == currency
  {
    WithdrawalsPath + "/" + currency
  }

  // ---------------------------------------------------------------------------
  // Orders
  // ---------------------------------------------------------------------------

  /** The `side:` argument of create_order: the symbols :buy and :sell, or any other object, known by its `to_s`. */
  datatype Side = Buy | Sell | Other(name: string)

  /** The side as the exchange names it; any other side is refused with a RuntimeError. */
  function WayOf(side: Side): (r: Outcome<string>)
    ensures r.Ok? <==> !side.Other?
    ensures side == Buy ==> r == Ok("Bid")
    ensures side == Sell ==> r == Ok("Ask")
    ensures side.Other? ==> r.error == Raised(RuntimeError, Text("Unknown side type " + side.name + ". Use :buy or :sell as symbols."))
  {
    match side
    case Buy => Ok("Bid")
    case Sell => Ok("Ask")
    case Other(name) => Err(Raised(RuntimeError, Text("Unknown side type " + name + ". Use :buy or :sell as symbols.")))
  }

  /**
   * The body of an order: pair code, side, and amount and price as the decimal
   * strings the caller's numbers print as.
   */
  function OrderPayload(pair: string, way: string, size: string, price: string): (body: map<string, Json>)
    ensures body.Keys == {"Code", "Way", "Amount", "Price"}
    ensures body["Code"] == Str(pair) && body["Way"] == Str(way)
    ensures body["Amount"] == Str(size) && body["Price"] == Str(price)
  {
    map["Code" := Str(pair), "Way" := Str(way), "Amount" := Str(size), "Price" := Str(price)]
  }

  // ---------------------------------------------------------------------------
  // Withdrawals
  // ---------------------------------------------------------------------------

  /**
   * The body of a withdrawal: address and amount always, the comment and the
   * validation code only when the caller passed a true value for them.
   */
  method WithdrawalPayload(address: Json, amount: Json, comment: Json, validation: Json)
    returns (opts: map<string, Json>)
    ensures opts.Keys == {"AddressName", "Amount"}
                         + (if Truthy(comment) then {"Comment"} else {})
                         + (if Truthy(validation) then {"ValidationCode"} else {})
    ensures opts["AddressName"] == address && opts["Amount"] == amount
    ensures "Comment" in opts ==> opts["Comment"] == comment
    ensures "ValidationCode" in opts ==> opts["ValidationCode"] == validation
  {
    opts := map["AddressName" := address, "Amount" := amount];
    if Truthy(comment) {
      opts := opts["Comment" := comment];
    }
    if Truthy(validation) {
      opts := opts["ValidationCode" := validation];
    }
  }

  // ---------------------------------------------------------------------------
  // Authentication headers and the signed request
  // ---------------------------------------------------------------------------

  const ContentTypeHeader: string := "Content-Type"
  const PublicKeyHeader: string := "API_PUBLIC_KEY"
  const DateHeader: string := "API_REQUEST_DATE"
  const SignatureHeader: string := "API_REQUEST_SIGNATURE"
  const JsonContentType: string := "application/json"

  /**
   * `auth_headers(path, method)` with the clock reading `timestamp`: the content
   * type, the public key, the timestamp and the signature made with that same
   * timestamp and the JSON content type.
   */
  function AuthHeaders(p: Signing.Primitives, c: Client, path: string, verb: string, timestamp: string)
    : (h: map<string, string>)
    ensures h.Keys == {ContentTypeHeader, PublicKeyHeader, DateHeader, SignatureHeader}
    ensures h[ContentTypeHeader] == JsonContentType
    ensures h[PublicKeyHeader] == c.key
    ensures h[DateHeader] == timestamp
    ensures '\n' !in h[SignatureHeader]
  {
    var signature := Signing.Signature(p, c.secret, verb, c.url, path, JsonContentType, timestamp);
    map[
      ContentTypeHeader := JsonContentType,
      PublicKeyHeader := c.key,
      DateHeader := timestamp,
      SignatureHeader := signature
    ]
  }

  /**
   * What the exchange checks on receipt: the signature header is the expected
   * signature of this verb, URL and path under the content type and the date the
   * headers themselves carry.
   */
  ghost predicate Authentic(p: Signing.Primitives, secret: string, url: string, verb: string, path: string,
                            h: map<string, string>)
  {
    && ContentTypeHeader in h && DateHeader in h && SignatureHeader in h
    && h[SignatureHeader] == Signing.ExpectedSignature(p, secret, verb, url, path, h[ContentTypeHeader], h[DateHeader])
  }

  /** The headers the client sends always pass the exchange's check, whatever the verb, path and clock reading. */
  lemma AuthHeadersAuthentic(p: Signing.Primitives, c: Client, path: string, verb: string, timestamp: string)
    requires Signing.EmitsBase64Alphabet(p)
    ensures Authentic(p, c.secret, c.url, verb, path, AuthHeaders(p, c, path, verb, timestamp))
  {
    Signing.SignatureIsExpected(p, c.secret, verb, c.url, path, JsonContentType, timestamp);
  }

  /** What the transport receives: verb, full URL, headers and the JSON body if any. */
  datatype Body = NoBody | JsonBody(fields: map<string, Json>)
  datatype HttpRequest = HttpRequest(verb: string, url: string, headers: map<string, string>, body: Body)

  /**
   * `get`, `post` and `delete` up to the transport: the URL is the base URL
   * followed by the path, and the path alone is signed.
   */
  function Prepare(p: Signing.Primitives, c: Client, verb: string, path: string, body: Body, timestamp: string)
    : (req: HttpRequest)
    ensures req.verb == verb && req.body == body
    ensures req.url == c.url + path
    ensures req.headers == AuthHeaders(p, c, path, verb, timestamp)
  {
    HttpRequest(verb, c.url + path, AuthHeaders(p, c, path, verb, timestamp), body)
  }

  /**
   * A GET request goes out with `Content-Type: application/json`, yet its signature
   * is the one for an empty content type.
   */
  lemma GetSignedWithoutContentType(p: Signing.Primitives, c: Client, path: string, timestamp: string)
    requires Signing.EmitsBase64Alphabet(p)
    ensures Prepare(p, c, Signing.Get, path, NoBody, timestamp).headers[ContentTypeHeader] == JsonContentType
    ensures Prepare(p, c, Signing.Get, path, NoBody, timestamp).headers[SignatureHeader]
         == Signing.ExpectedSignature(p, c.secret, Signing.Get, c.url, path, "", timestamp)
  {
    Signing.SignatureIsExpected(p, c.secret, Signing.Get, c.url, path, JsonContentType, timestamp);
  }
}

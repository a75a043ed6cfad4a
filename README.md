# Gatecoin API client: signing, request shaping and error classification

A Dafny model of `Gatecoin::API`, a Ruby client for the Gatecoin exchange's
authenticated REST API. The model covers what the client decides for itself:

- how a request is signed: the canonical string (verb, base URL, path, content
  type and timestamp joined with no delimiter and lower-cased, the content type
  blanked for GET), HMAC-SHA256 over it with the secret key, Base64 of the
  digest as `Base64.encode64` emits it (line-wrapped), and the removal of every
  line feed;
- the four authentication headers, built from one clock reading;
- the endpoint paths, the order side (`:buy` is `Bid`, `:sell` is `Ask`), the
  order payload and the withdrawal payload with its optional keys;
- what each operation (`balances`, `order`, `create_order`, `cancel_order`,
  `deposit_wallets`, `withdrawal`) makes of the reply: the value it returns or
  the exception it raises, with the message it carries.

Ruby semantics that decide the outcomes are kept: only `nil` and `false` are
falsy (an `errorCode` of `0` is an error); `[]` on a parsed value answers `nil`
for a missing Hash key, fails with NoMethodError on `nil` and booleans and with
TypeError on arrays and integers; `raise` of a non-String is a TypeError; the
`rescue => e` of `create_order` and `cancel_order` turns every exception raised
in their bodies, the unknown side and the transport's failures included, into
their own exception class with the same message.

Files: `values.dfy` (module `Values`: JSON values, truthiness, `[]`, exceptions
as `Outcome`), `signing.dfy` (module `Signing`), `requests.dfy` (module
`Requests`: client, paths, side, payloads, headers, the signed request),
`operations.dfy` (module `Operations`: one function per operation, with the
transport as a parameter `send: HttpRequest -> Reply`, plus a method for
`withdrawal`, whose payload is built by updating a map in place as the source
does).

HMAC-SHA256 and single-line Base64 are supplied as function values
(`Signing.Primitives`); the only thing assumed of them is that the Base64
encoder emits characters of its alphabet (`Signing.EmitsBase64Alphabet`). The
clock reading is a parameter (`timestamp`), as are the amounts and prices,
already printed as decimal strings.

Three behaviours of the code that a caller might not expect, modelled as the
code has them:

- `balances` returns `nil` when the reply has no `balances` field; it raises
  nothing (`Operations.BalancesResult`).
- The optional withdrawal key is `ValidationCode`, written without a space.
- `deposit_wallets` without `addresses` raises a RuntimeError only when the
  status message is a String; a missing `responseStatus` gives NoMethodError,
  a non-String message TypeError.

Helpers without a row of their own are covered by the rows of the members that
use them: `Values.Contains` (String `[]`) by `Values.Index`, `Signing.Encode64`
by `Signing.Signature` and `Signing.SignatureIsExpected`, `Operations.Field`
by the contracts that name it, and `Operations.Received` (the body of a reply or
the transport's exception) by `Operations.Order`.

## Model

| member | source | states |
|---|---|---|
| `Values.MessageOf` | lib/gatecoin/gatecoin.rb:44-45 | an exception built from a String carries that text; one built from any other value carries that value's printed form |
| `Values.Index` | lib/gatecoin/gatecoin.rb:42-43 | `v[key]` answers the Hash entry or nil for a missing key, succeeds only on a Hash or a String, and raises NoMethodError on nil/booleans and TypeError on arrays/integers |
| `Values.RaiseValue` | lib/gatecoin/gatecoin.rb:70 | `raise v` always raises; it is a RuntimeError carrying the text exactly when `v` is a String, and a TypeError with Ruby's own message otherwise |
| `Values.Rescue` | lib/gatecoin/gatecoin.rb:49-50 | a value passes unchanged; every exception leaves as the given class with its message kept |
| `Signing.LowerChar` | lib/gatecoin/gatecoin.rb:98 | an upper-case ASCII letter moves to its lower-case letter; every other character is kept |
| `Signing.Lower` | lib/gatecoin/gatecoin.rb:98 | `downcase` keeps the length and lower-cases each character in its place |
| `Signing.LowerAppend` | lib/gatecoin/gatecoin.rb:98 | lower-casing a concatenation is the concatenation of the lower-cased parts |
| `Signing.LowerIsLower` | lib/gatecoin/gatecoin.rb:98 | a lower-cased string has no upper-case ASCII letter, and lower-casing is idempotent |
| `Signing.SignedContentType` | lib/gatecoin/gatecoin.rb:97 | the content type enters the signed string as given, except for GET where it is empty |
| `Signing.Canonical` | lib/gatecoin/gatecoin.rb:98 | the signed string is exactly as long as the five parts together: nothing is inserted between them |
| `Signing.CanonicalParts` | lib/gatecoin/gatecoin.rb:97-98 | the signed string is the lower-cased verb, URL, path, content type (empty for GET) and timestamp laid end to end, with no delimiter |
| `Signing.StripNewlines` | lib/gatecoin/gatecoin.rb:100 | `gsub("\n", '')` leaves no line feed, never lengthens, and keeps every other character with its multiplicity |
| `Signing.StripNewlinesAppend` | lib/gatecoin/gatecoin.rb:100 | stripping a concatenation strips each part, so the order of the remaining characters is kept |
| `Signing.StripNewlinesFixed` | lib/gatecoin/gatecoin.rb:100 | stripping changes a string if and only if it contains a line feed |
| `Signing.LineWrap` | lib/gatecoin/gatecoin.rb:100 | the output of `encode64` for a non-empty digest ends in a line feed, which is why the signature must be stripped |
| `Signing.StripLineWrap` | lib/gatecoin/gatecoin.rb:100 | stripping the line feeds from `encode64`'s wrapped output gives back the single-line encoding |
| `Signing.Signature` | lib/gatecoin/gatecoin.rb:96-101 | the signature never contains a line feed |
| `Signing.SignatureIsExpected` | lib/gatecoin/gatecoin.rb:96-101 | for all inputs, the signature equals the single-line Base64 of the HMAC, keyed by the secret, of the lower-cased verb, URL, path, content type (empty for GET) and timestamp, concatenated |
| `Signing.GetSignatureIgnoresContentType` | lib/gatecoin/gatecoin.rb:97 | two GET signatures that differ only in the content type argument are equal |
| `Signing.SignatureIgnoresCase` | lib/gatecoin/gatecoin.rb:98 | URLs, paths, content types and timestamps that agree once lower-cased give the same signature |
| `Requests.OrderPath` | lib/gatecoin/gatecoin.rb:23 | the order path is `/Trade/Orders/` followed by the id, so the id can be read back and distinct ids give distinct paths |
| `Requests.WithdrawalPath` | lib/gatecoin/gatecoin.rb:83 | the withdrawal path is `/ElectronicWallet/withdrawals/` followed by the currency, which can be read back |
| `Requests.WayOf` | lib/gatecoin/gatecoin.rb:27-32 | `:buy` gives `Bid`, `:sell` gives `Ask`, and any other side is refused with the "Unknown side type ..." RuntimeError |
| `Requests.OrderPayload` | lib/gatecoin/gatecoin.rb:34-39 | the order body has exactly the keys Code, Way, Amount and Price, holding the pair, the side and the printed size and price |
| `Requests.WithdrawalPayload` | lib/gatecoin/gatecoin.rb:75-81 | the withdrawal body always has AddressName and Amount, has Comment iff a true comment is given and ValidationCode iff a true validation is given, and no other key |
| `Requests.AuthHeaders` | lib/gatecoin/gatecoin.rb:137-148 | exactly four headers: Content-Type `application/json`, the public key, the clock reading as the date, and a one-line signature |
| `Requests.AuthHeadersAuthentic` | lib/gatecoin/gatecoin.rb:137-147 | the signature header is the expected signature for the verb and path under the content type and date the same headers carry: one timestamp feeds both |
| `Requests.Prepare` | lib/gatecoin/gatecoin.rb:103-135 | the request goes to the base URL followed by the path, with the given verb and body, under the authentication headers for that path and verb |
| `Requests.GetSignedWithoutContentType` | lib/gatecoin/gatecoin.rb:107 | a GET goes out with Content-Type `application/json` but is signed as if its content type were empty |
| `Operations.BalancesResult` | lib/gatecoin/gatecoin.rb:19 | `balances` returns the `balances` field of a Hash reply, nil when it is absent, and lets a transport failure through unchanged |
| `Operations.Balances` | lib/gatecoin/gatecoin.rb:18-20 | one signed GET of `/Balance/Balances`, whose reply decides the outcome |
| `Operations.Order` | lib/gatecoin/gatecoin.rb:22-24 | one signed GET of `/Trade/Orders/id`; the parsed reply is returned as it is and a transport failure passes through |
| `Operations.CreateOrderCheck` | lib/gatecoin/gatecoin.rb:42-46 | before the rescue, the order passes unchanged iff `order['clOrderId']` succeeds and is true; a Hash without a true clOrderId or responseStatus fails with a CreateOrderException carrying the whole response; the only classes that can leave are CreateOrderException, NoMethodError and TypeError |
| `Operations.CreateOrderResult` | lib/gatecoin/gatecoin.rb:40-51 | the order is returned unchanged iff it has a true clOrderId; otherwise a CreateOrderException with the status message when status and message are both true, else the whole response; a transport failure becomes a CreateOrderException with its message; no other exception class leaves |
| `Operations.CreateOrder` | lib/gatecoin/gatecoin.rb:26-51 | an unknown side sends nothing and fails with a CreateOrderException carrying the "Unknown side type ..." text; a known side sends one signed POST of the order body to `/Trade/Orders`; only CreateOrderException can leave |
| `Operations.StatusCheck` | lib/gatecoin/gatecoin.rb:56-62 | for a Hash reply whose status is a Hash, it fails iff the errorCode is true (0 included), with the status message if true, else the status itself; a reply without a true status passes unchanged |
| `Operations.CancelOrderResult` | lib/gatecoin/gatecoin.rb:53-65 | cancel_order fails exactly when the status check fails, always as a CancelOrderException with the check's message; a transport failure becomes a CancelOrderException with its message |
| `Operations.CancelOrder` | lib/gatecoin/gatecoin.rb:53-54 | one signed DELETE of `/Trade/Orders/id`, whose reply decides the outcome |
| `Operations.WithdrawalResult` | lib/gatecoin/gatecoin.rb:83-91 | withdrawal applies the status check with WithdrawalException and, having no rescue, lets a transport failure through unchanged |
| `Operations.Withdrawal` | lib/gatecoin/gatecoin.rb:74-92 | one signed POST to `/ElectronicWallet/withdrawals/currency` whose body holds the given address and amount, and the given comment and validation code exactly when they are true; the reply decides the outcome |
| `Operations.DepositWalletsResult` | lib/gatecoin/gatecoin.rb:67-72 | a true `addresses` field is returned; otherwise `raise` of the status message: a RuntimeError with it when it is a String, a TypeError when not, a NoMethodError when the status is missing |
| `Operations.DepositWallets` | lib/gatecoin/gatecoin.rb:67-68 | one signed GET of `/ElectronicWallet/DepositWallets`, whose reply decides the outcome |
| `Operations.PreparedIsSigned` | lib/gatecoin/gatecoin.rb:103-135 | a request built for a verb and path has the base URL followed by that path as URL, the clock reading as date, the public key, and a signature the exchange accepts for that path |
| `Operations.EveryRequestSigned` | lib/gatecoin/gatecoin.rb:18-72 | every request balances, order, create_order, cancel_order and deposit_wallets send is signed for its own verb and path with the call's timestamp |
| `Operations.ErrorCodeZeroFails` | lib/gatecoin/gatecoin.rb:85-88 | a status with errorCode 0 and a String message makes both cancel_order and withdrawal fail with that message |

## Left out

- HTTP transport (RestClient in `get`, `post`, `delete`): replaced by the parameter `send: HttpRequest -> Reply`; a failed HTTP status, a refused connection and an unparsable body are one `Reply.Failed` carrying the message.
- `JSON.parse` / `JSON.unparse` and the `skip_json` option: replies are already-parsed `Json` values and request bodies are maps; no caller in the modelled core passes `skip_json`.
- HMAC-SHA256 and Base64 (RFC 4648 section 4): supplied as function values; only the line wrapping that `Base64.encode64` adds (60 characters per line, each ended by a line feed) is modelled.
- `Time.now.utc.to_f.round(3).to_s` and `size.to_f.to_s` / `price.to_f.to_s`: floating-point formatting; the timestamp and the printed amounts are string parameters.
- `Signing.Lower`: models `downcase` on ASCII letters only; Ruby also maps non-ASCII letters, which the model leaves unchanged.
- Query parameters of `get` (`URI.encode_www_form`): no operation passes any.
- `Operations.Order`: a GET signs `uri.request_uri` of `URI.parse(url + path)`, while the model signs the path as given. Ids are assumed to contain no `#` or `?` and nothing `URI.parse` rejects, and the base URL to have no path or query of its own. Outside that, the source differs: for the id `12#x` it signs `/Trade/Orders/12` where the model signs `/Trade/Orders/12#x`, and for an id `URI.parse` rejects it raises `URI::InvalidURIError` before sending, where the model sends. The same assumption holds for `Operations.Balances` and `Operations.DepositWallets`, whose paths are constants.
- Floating-point JSON numbers: `Json.Num` holds integers only (a Float would answer `[]` with NoMethodError rather than TypeError).
- The exception classes `Gatecoin::CreateOrderException`, `CancelOrderException` and `WithdrawalException` are defined outside `gatecoin.rb` and are not part of this model; they are taken to be StandardError subclasses whose message is the value they are built with.
- The printed form of a non-String value (`Hash#to_s`) is not modelled: such a message is `Message.Shown(value)`.
- `require 'byebug'` and the default base URL `https://api.gatecoin.com` of `initialize`: the base URL is a field of `Requests.Client`, and no property depends on its value.
- `Operations.CreateOrderResult`: the message precedence is stated for Hash replies; for a String or a non-Hash status the function follows Ruby's `[]` but its contract says only that a CreateOrderException leaves.
- `Operations.StatusCheck`: the error/pass contract is stated for a Hash reply whose status is a Hash or falsy; for other shapes it states only that the result is the reply or an exception of the given class, NoMethodError or TypeError.
- `Operations.DepositWalletsResult`: stated for Hash replies whose status is a Hash or missing; other shapes are covered only by "a returned value is true".
- `Operations.Withdrawal`: its requests are signed by the same `Prepare` as the others (its contract names the exact headers) but it is not listed in `Operations.EveryRequestSigned`, because a method's result cannot appear in a lemma.

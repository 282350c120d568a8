# YooKassa Go SDK: resolution, truncation and request building

This project models, in Dafny, the decision logic of the YooKassa payment-API
client for Go:

- **Resolution of a payment's untyped fields** (`yookassa/payment/payment.go`).
  `Confirmation`, `Metadata` and `PaymentMethod` are Go interface values. The
  model represents them as `Payments.Any`: a value decoded by `encoding/json`
  (`Json.JValue`), a payment-method struct value, a pointer to one (possibly
  nil), or a value of some other Go type. The confirmation-token and
  invoice-id getters are four-step checked lookups, each step with its own
  error. `convertPaymentMethod[T]` is an ordered resolution: pointer to `T`,
  then `T`, then generic map decoded into `T`, otherwise an
  "unsupported payment method type" error. The SBP getter also checks the
  `type` discriminator against `"sbp"`.
- **Item description truncation** (`yookassa/common/item.go`). Before
  encoding, an item's description is cut to at most 128 code points.
- **Request construction in `makeRequest`** (`yookassa/client.go`). This
  covers the URI, the POST-only `Content-Type` and `Idempotence-Key` headers,
  the defaulting of the idempotency key to a generated one, Basic
  authentication, and the query parameters. Three things are inputs to the
  model: the generated key, the outcome of `http.NewRequest`, and the
  transport.

Modules: `Results` (Option/Result), `Json` (decoded JSON values and the Go
type names `%T` prints), `Decimal` (the `%v` rendering of integers and a
reference parser that inverts it), `Items`, `Payments`, `Requests`.

Descriptions are sequences of Unicode code points. Go strings are UTF-8
bytes, and the model assumes they are valid UTF-8.

## Model

| member | source | states |
|---|---|---|
| Payments.LookupNonEmptyString | yookassa/payment/payment.go:111-126 | the shared checked lookup is classified five ways: not a generic map, key absent, value not a string (reporting its Go type), empty string, or success returning exactly the stored non-empty string |
| Payments.GetConfirmationToken | yookassa/payment/payment.go:110-127 | `confirmation_token` lookup: "not a map" unless the confirmation is a `map[string]interface{}`, then "not found", "not a string", "empty"; success only with the exact non-empty stored token |
| Payments.GetInvoiceIdFromMetadata | yookassa/payment/payment.go:129-146 | the same five-way classification for `invoice_id` in the metadata, with the metadata's Go type reported when it is not a generic map |
| Payments.LookupReadsBackStoredString | yookassa/payment/payment.go:115-126 | storing a non-empty string under the key of a decoded map and looking it up yields exactly that string |
| Payments.LookupIgnoresOtherKeys | yookassa/payment/payment.go:115-126 | entries under other keys never change the outcome of a lookup |
| Payments.LookupErrorIdentifiesStep | yookassa/payment/payment.go:111-125 | each error kind occurs if and only if its step fails, so "not a map", "absent", "wrong type" and "empty" are distinguishable |
| Payments.ConfirmationTokenSamples | yookassa/payment/payment.go:110-127 | `{"confirmation_token": ""}` is empty, `{}` is not found, `42` is not a string (a float64), `"tok_1"` yields `"tok_1"` |
| Payments.DecodeMethod | yookassa/payment/payment.go:180-191 | decoding a generic map into a payment-method struct succeeds iff `type` is absent, null or a string (in this model, whose decoder checks only `type`); the discriminator is that string, or empty when `type` is absent or null; the result has the requested type and keeps every other entry; a non-string `type` is an unmarshal type error naming its JSON kind |
| Payments.ConvertPaymentMethod | yookassa/payment/payment.go:172-195 | the result always has the requested type; a pointer to it or a value of it is returned unchanged; a generic map is decoded; a nil pointer of that type is an error; "unsupported payment method type" occurs exactly for the other shapes and reports their Go type |
| Payments.ResolveEncodedMethod | yookassa/payment/payment.go:180-191 | a payment method encoded as a generic map resolves back to the same method with every field unchanged (struct to map to struct; the reverse direction is not claimed, since Go's decoder drops keys the struct does not declare) |
| Payments.GetBasePaymentMethod | yookassa/payment/payment.go:148-150 | resolution as `BasePaymentMethod`: the result has that type, a pointer or value of it is returned unchanged, a nil pointer to it is `NilPointerDereference`, a generic map is decoded, other shapes are unsupported and the error reports their Go type |
| Payments.GetPaymentMethodWithCard | yookassa/payment/payment.go:152-154 | resolution as `PaymentMethodWithCard`: the result has that type, a pointer or value of it is returned unchanged, a nil pointer to it is `NilPointerDereference`, a generic map is decoded, other shapes are unsupported and the error reports their Go type |
| Payments.GetPaymentMethodSbp | yookassa/payment/payment.go:156-170 | a conversion error is propagated unchanged; success iff conversion succeeds and the discriminator is `"sbp"`; any other discriminator is a "not SBP" error carrying the value found |
| Payments.SbpRejectsCardTag | yookassa/payment/payment.go:165-167 | a generic map tagged `"bank_card"` is never resolved as SBP, whatever its other entries |
| Payments.SbpAcceptsSbpTag | yookassa/payment/payment.go:156-170 | a generic map tagged `"sbp"` always resolves as SBP in this model, whose decoder checks only `type` |
| Items.TruncateDescription | yookassa/common/item.go:35-37 | the encoded description is a prefix of the original, at most 128 code points, unchanged when it fits, exactly 128 code points when it does not |
| Items.Truncated | yookassa/common/item.go:30-41 | the item handed to the encoder differs from the receiver only in the description, which is a prefix of at most 128 code points and exactly 128 when the original is longer; it equals the receiver iff the description fits |
| Items.TruncatedIdempotent | yookassa/common/item.go:33-38 | truncating an already-truncated item changes nothing |
| Items.TruncationKeepsLongestPrefix | yookassa/common/item.go:35-37 | every prefix of the description that fits in 128 code points is a prefix of the truncated description |
| Items.TruncationDependsOnlyOnHead | yookassa/common/item.go:36-37 | two over-long descriptions with the same first 128 code points encode identically |
| Items.TruncationOfFittingPrefixExtension | yookassa/common/item.go:35-37 | 128 code points followed by any tail are encoded as exactly those 128 code points |
| Decimal.FormatNat | yookassa/client.go:59 | the `%v` rendering of a natural number is a non-empty string of decimal digits without a leading zero |
| Decimal.ParseFormatInt | yookassa/client.go:59 | reading back the `%v` rendering of any integer parameter yields that integer |
| Decimal.FormatIntInjective | yookassa/client.go:59 | distinct integer parameters render to distinct query values |
| Requests.FormatValue | yookassa/client.go:59 | `%v` rendering: a string as itself, an integer as its canonical decimal numeral (no leading zero, `-` for negatives) that reads back as that integer, a boolean as `true`/`false`, nil as `<nil>` |
| Requests.EffectiveKey | yookassa/client.go:45-47 | the key used is never empty: the caller's key when it is non-empty, otherwise the generated one |
| Requests.EncodeParams | yookassa/client.go:56-62 | the query holds exactly the parameter names, each with the single `%v` rendering of its value |
| Requests.BuildRequest | yookassa/client.go:38-62 | URI is the base URL followed by the endpoint; `Content-Type` and `Idempotence-Key` are present iff the method is POST, the key being the effective key; Basic auth with the client's credentials on every request; a query iff parameters were given |
| Requests.MakeRequest | yookassa/client.go:31-70 | a request-construction error is returned unmodified and nothing is sent; otherwise a well-formed request is sent and the transport's response or error is returned unmodified |
| Requests.WellFormedIsDeterministic | yookassa/client.go:38-62 | the request promises determine the request completely |
| Requests.NonPostCarriesNoKey | yookassa/client.go:49-52 | a request other than POST never carries an `Idempotence-Key` header, whatever key was passed |
| Requests.KeyOnlyAffectsIdempotenceHeader | yookassa/client.go:45-52 | two POSTs built with different non-empty caller keys differ only in their `Idempotence-Key` header |

## Left out

- The payment-method struct types (`BasePaymentMethod`, `PaymentMethodWithCard`, `SBP`) are not part of this model. A value of them is its type, its `type` discriminator and its other JSON fields, kept as raw JSON. Go would type-check and drop those fields on decoding; the model does neither.
- `encoding/json` matches struct keys case-insensitively (`"Type"` would fill the discriminator). The model matches `type` exactly.
- The `json.Marshal` failure in the generic-map branch (payment.go lines 181-184) cannot occur here: every modelled map holds only decoded JSON values, which always encode.
- A generic map built by a caller with values that are not JSON values (channels, functions) is not modelled.
- A nil pointer to the requested type makes Go's `*v` panic. The model returns this as the distinct error `NilPointerDereference`.
- The Go value returned beside an error is not kept. On a discriminator mismatch `GetPaymentMethodSbp` also returns the decoded value; the model returns only the error.
- The "confirmation is not a map" message does not print the Go type. The model's `NotAMap` error carries it anyway.
- The debug print of the discriminator in `GetPaymentMethodSbp` is an output side effect, not behaviour.
- The rest of the `Payment` field catalogue, its `time.Time` fields and the contents of `Amount` are plain data mirroring.
- The JSON encoding of an item (tags, `omitempty`) is left out; only the value handed to the encoder is modelled.
- Invalid UTF-8 descriptions are left out. Go replaces each bad byte with U+FFFD when it counts and cuts, and the model's descriptions are code points.
- JSON numbers are integers; no modelled operation inspects a number.
- `http.NewRequest` is left out. Whether it rejects the method or URI is the input `newRequestError`. It also turns the empty method `""` into `"GET"`; the model keeps the method as the caller gave it.
- `http.Client.Do` is left out; it is the `transport` parameter.
- `uuid.NewString()` is the caller-supplied non-empty `generated` key. Its uniqueness is probabilistic and not stated. For requests other than POST, Go generates a key and discards it; the model's request is the same either way.
- `url.Values.Encode` is left out. Its percent-encoding and key ordering are library behaviour, and the model keeps the `url.Values` themselves.
- An endpoint that carries its own `?query` is left out. Go parses that query first and then adds the parameters; the model starts from empty values.
- `%v` is modelled for strings, integers, booleans and nil. Floats and composite values are left out.
- `SetBasicAuth` is left out as an encoding step. The request carries the credentials; their base64 `Authorization` header value is not modelled.
- The process-wide `YkClient` and `InitClient` are global mutable state with no logic.
- `NewPaymentHandler`/`SetIdempotencyKey` (the payment handler's idempotency-key slot) are outside this model, and `yookassa/idempotency_test.go` is not modelled.

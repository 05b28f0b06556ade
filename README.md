# go-betfair-api: request shaping and response handling, in Dafny

This project models the core of `go-betfair-api`, a Go client for the Betfair
Exchange betting API (JSON-RPC over HTTPS, certificate login). The model has
three parts:

- **Wire records** (`pkg/types/types.go`, modules `Wire` and `Types`). These are
  the request and response records and the rules their `json:"...,omitempty"`
  tags impose.
  - A JSON object is a map from member name to value. A Go slice is `Slice<T>`,
    which keeps nil apart from empty.
  - Each record has a member function that says, key by key, whether
    encoding/json writes the member and with what value.
  - Decoders read back the objects the encoders write, as encoding/json would
    fill a zero record from them. Keys are matched exactly.
  - The round-trip lemmas show that the encoding loses exactly one thing: the
    difference between an empty `omitempty` slice and a nil one.
- **Transport** (`pkg/transport/jsonrpc.go`, module `Transport`).
  - How `createParams` and `createPlaceParams` assemble the `params` member, and
    how `Do` dispatches on its extra-parameter argument.
  - The JSON-RPC 2.0 envelope under `SportsAPING/v1.0/` (JSON-RPC 2.0
    Specification, section 4) and the request headers.
  - How a response becomes a payload or an error (JSON-RPC 2.0 Specification,
    sections 5 and 5.1).
  - The `CheckRetry` decision and the root-CA path choice.
  - The client is the class `JsonRPCClient`. `SetSessionKey` and `Authenticate`
    overwrite its stored session, and `Do` reads it.
- **Facade** (`pkg/betting/api.go`, module `Betting`). Each `List*` method of
  the class `API` is proved equal to "one transport call with this operation,
  id 1, this filter and this parameter bag, then decode". `PlaceOrder` makes one
  call and returns no report, and `NewAPI` builds the client and makes no call.
  Lemmas say what each bag puts into the parameters and onto the wire. `ListTimeRanges` updates the caller's filter in place, through a
  `MarketFilterRef` object.

The network is a function parameter, from the request sent to what came back: a
connection failure, or a status and the body as encoding/json decoded it. The
decoded body is `Parsed(v)` or `Malformed(v)`, where `Malformed` means
`json.Unmarshal` reported an error. After a syntax error nothing is filled in.
After a type mismatch the mismatched member is skipped and the rest are filled.
The model leaves `v` of a `Malformed` body unconstrained. In the same way, turning a payload into
result records is a decoder the caller passes in.

Where the code and the intended design differ, the model follows the code:

- `types.go` does not declare `Params.DateRange`, `CustomerRef`,
  `CustomerStrategyRef`, `Instructions`, `MarketFilterParams.DateRange`,
  `PlaceInstructionParams`, `CurrentOrdersWrapper` or `PlaceExecutionReport`,
  yet `jsonrpc.go` and `api.go` use them. The model takes the union of the
  fields the code uses. It assumes the new `Params` fields are tagged like the
  others (`dateRange`, `customerRef`, `customerStrategyRef`, `instructions`,
  all `omitempty`).
- `jsonrpc.go:216` assigns `Params.DateRange` a `TimeRange` value, not a pointer.
  `omitempty` never drops a struct value, so every request carries a
  `dateRange` member. For a zero range it is an empty object.
- `TransportInterface.Do` (`types.go:14`) has a different signature from
  `JsonRPCClient.Do`. The facade is modelled over the concrete client.
- `ListTimeRanges` sends the granularity only when it is not empty.
  `createParams` copies the bag's granularity only if it is non-empty
  (`jsonrpc.go:188`), so an empty granularity is not sent at all.
- `PlaceOrder` passes `&params`, a `**PlaceInstructionParams`. `Do` recognises
  neither bag type, so it sends the all-zero `Params`, without even the locale.
  The report is then unmarshalled into a nil pointer, which encoding/json
  refuses. A successful `PlaceOrder` therefore always returns no report.
- The non-200 error of `Do` reuses the text of the login error
  (`jsonrpc.go:162`). The model keeps errors as structured values
  (`HttpStatus(code, status)`), not as message text.

## Model

| member | source | states |
|---|---|---|
| Wire.NullableStrings | pkg/types/types.go:90 | A `[]string` member without `omitempty` is `null` exactly when the slice is nil |
| Wire.NullableStringsRoundTrip | pkg/types/types.go:90 | Such a member reads back as the same slice, nil and empty included |
| Wire.OmitEmptyStringsRoundTrip | pkg/types/types.go:79-83 | An `omitempty` `[]string` member reads back with an empty slice turned into nil |
| Wire.DropEmptySameWire | pkg/types/types.go:79-83 | Turning an empty slice into nil does not change what `omitempty` writes |
| Types.EncodeTimeRange | pkg/types/types.go:72-75 | `from` and `to` are each present exactly when non-empty, and no other member is written |
| Types.TimeRangeMemberAt | pkg/types/types.go:72-75 | Each member of the encoded range is what the tag rule gives for that key |
| Types.ZeroTimeRangeHasNoMembers | pkg/types/types.go:72-75 | The zero range is written as an object with no members |
| Types.TimeRangeRoundTrip | pkg/types/types.go:72-75 | Decoding an encoded range gives it back |
| Types.EncodePriceProjection | pkg/types/types.go:107-109 | `priceData` is always written, as `null` exactly when nil |
| Types.PriceProjectionRoundTrip | pkg/types/types.go:107-109 | Decoding an encoded projection gives it back, nil and empty data kept apart |
| Types.EncodeFilter | pkg/types/types.go:77-93 | `marketCountries` is always written (`null` when nil); `marketStartTime` is present exactly when set; only filter keys appear |
| Types.FilterMemberAt | pkg/types/types.go:77-93 | Each member of the encoded filter is what its tag rule gives for that key |
| Types.ZeroFilterOnWire | pkg/types/types.go:77-93 | The zero filter is written as `{"marketCountries": null}` and nothing else |
| Types.FilterRoundTripIds | pkg/types/types.go:78-83 | The text query and the id lists read back, with empty lists turned into nil |
| Types.FilterRoundTripFlags | pkg/types/types.go:84-88 | The three flags read back exactly, and the betting-type and type-code lists with empty lists turned into nil |
| Types.FilterRoundTripMarkets | pkg/types/types.go:89-92 | The start time and the country list read back exactly; the order and race lists with empty turned into nil |
| Types.FilterRoundTrip | pkg/types/types.go:77-93 | Decoding an encoded filter gives its canonical form: the filter with empty `omitempty` slices turned into nil |
| Types.CanonicalFilterMember | pkg/types/types.go:77-93 | Canonicalising a filter changes none of its members on the wire |
| Types.CanonicalFilterSameWire | pkg/types/types.go:77-93 | A filter and its canonical form are written identically |
| Types.EncodeInstruction | pkg/types/types.go:209-225 | An order instruction writes `orderType`, `selectionId`, `side` and the untagged embedded LimitOrder fields under their Go names |
| Types.InstructionArray | pkg/types/types.go:219-225 | An instruction list is `null` exactly when nil |
| Types.InstructionsRoundTrip | pkg/transport/jsonrpc.go:237-239 | An `omitempty` instruction list reads back with an empty list turned into nil |
| Types.EncodeParams | pkg/types/types.go:30-42 | Only parameter keys appear; `dateRange` is always written; `filter` and `granularity` are present exactly when set (even to ""); `locale` exactly when non-empty |
| Types.ParamsMemberAt | pkg/types/types.go:30-42 | Each member of the encoded parameters is present as its tag rule says, with that field's value: pointers when non-nil, slices when non-empty, other scalars when non-zero, `dateRange` always |
| Types.ParamsRoundTripSelection | pkg/types/types.go:31-37 | Filter, granularity, maximum, market ids, selection id and price projection read back, up to empty-versus-nil slices |
| Types.ParamsRoundTripProjections | pkg/types/types.go:38-41 | The order and match projections and the locale read back exactly, and the market projection with an empty list turned into nil |
| Types.ParamsRoundTripOrders | pkg/transport/jsonrpc.go:215-239 | The date range and customer references read back exactly, and the instructions with an empty list turned into nil |
| Types.ParamsRoundTrip | pkg/types/types.go:30-42 | Decoding encoded parameters gives their canonical form |
| Types.CanonicalParamsMember | pkg/types/types.go:30-42 | Canonicalising parameters changes none of their members on the wire |
| Types.CanonicalParamsSameWire | pkg/types/types.go:30-42 | Parameters and their canonical form are written identically |
| Types.ParamsWireIdentifiesCanonical | pkg/types/types.go:30-42 | Two parameter values are written identically exactly when their canonical forms are equal |
| Types.EncodeJsonRPC | pkg/types/types.go:49-54 | The envelope always carries exactly `jsonrpc`, `method`, `params` and `id`: the version and method as strings, the id as a number, and the encoded parameters as an object |
| Types.EncodeJsonError | pkg/types/types.go:44-47 | `code` and `message` are always written, as the error's number and text |
| Types.EncodeResponse | pkg/types/types.go:56-61 | `jsonrpc`, `result` and `id` are always written; `error` exactly when set, as the encoded error |
| Types.EncodeAuthenticate | pkg/types/types.go:63-66 | `sessionToken` and `loginStatus` are always written, as the session's token and status strings |
| Transport.CreateParams | pkg/transport/jsonrpc.go:182-221 | Filter as given and locale "en"; with no bag every other field is zero; with a bag each field equals the bag's (a guarded copy of a zero is a zero), granularity is set exactly when non-empty, and the date range is the bag's or zero |
| Transport.CreatePlaceParams | pkg/transport/jsonrpc.go:223-242 | No filter, locale "en", market id, references and instructions copied from the bag, every other field zero |
| Transport.BuildParams | pkg/transport/jsonrpc.go:125-136 | No bag: filter and locale; market bag: `createParams`; place bag: `createPlaceParams`; anything else: all-zero parameters |
| Transport.Query | pkg/transport/jsonrpc.go:137-142 | Version "2.0", the given id and parameters, and a method name that is the prefix followed by the operation |
| Transport.RpcRequest | pkg/transport/jsonrpc.go:147-154 | A POST to the JSON-RPC URL with exactly four headers: the application key, the session token, and `application/json` as both content type and accept |
| Transport.AuthRequest | pkg/transport/jsonrpc.go:94-100 | A POST to the login URL with exactly two headers, the application key and the `application/x-www-form-urlencoded` content type, and the form body `username=...&password=...` |
| Transport.ResultPayload | pkg/transport/jsonrpc.go:174-179 | The payload is `null` exactly when `result` is nil, and the result array otherwise |
| Transport.Unwrap | pkg/transport/jsonrpc.go:157-179 | A connection failure, a non-200 status and an error object each become an error carrying their details; success happens exactly otherwise, with a null or array payload |
| Transport.DecodeFailureIgnored | pkg/transport/jsonrpc.go:164-168 | A body that failed to decode is handled exactly like one that decoded to the same value |
| Transport.PayloadIsResultMember | pkg/transport/jsonrpc.go:167-179 | A successful payload is exactly the `result` member of the response |
| Transport.AuthOutcome | pkg/transport/jsonrpc.go:103-120 | A login succeeds exactly on status 200 with a cleanly decoded body, and returns that body; each failure says which step failed |
| Transport.CheckRetry | pkg/transport/jsonrpc.go:63-76 | Retry exactly on a connection error while the context lives; a dead context returns its error; a received response gives no error |
| Transport.CheckRetryIgnoresStatus | pkg/transport/jsonrpc.go:63-76 | The response status never changes the decision |
| Transport.ReceivedNeverRetried | pkg/transport/jsonrpc.go:74-75 | A received response is never retried, and gives no error while the context lives |
| Transport.CaBundlePath | pkg/transport/jsonrpc.go:35-39 | The configured root-CA path when one is set, the default otherwise; never empty |
| Transport.JsonRPCClient.constructor | pkg/transport/jsonrpc.go:80-84 | A new client holds the configuration and no session |
| Transport.JsonRPCClient.NewJsonRPCClient | pkg/transport/jsonrpc.go:32-85 | Fails exactly when the CA bundle cannot be read or the key pair cannot be loaded, naming which; otherwise a fresh client with no session |
| Transport.JsonRPCClient.SetSessionKey | pkg/transport/jsonrpc.go:87-89 | Replaces the session token and keeps the login status |
| Transport.JsonRPCClient.Authenticate | pkg/transport/jsonrpc.go:91-121 | Returns the login outcome of the request it sends; the stored session becomes the returned one on success and is unchanged on any failure |
| Transport.JsonRPCClient.Request | pkg/transport/jsonrpc.go:137-155 | The request of a call carries the stored session token, the application key and the encoded envelope |
| Transport.JsonRPCClient.Outcome | pkg/transport/jsonrpc.go:156-179 | For the exchange of the request the call sends: success exactly on status 200 with no `error` member, returning the re-encoded `result`; otherwise the transport failure, the status, or the remote error code and message |
| Transport.JsonRPCClient.Do | pkg/transport/jsonrpc.go:123-180 | The call returns `Outcome` for its arguments and the stored session, with a null or array payload on success |
| Transport.BareParamsOnWire | pkg/transport/jsonrpc.go:133-136 | A call with no bag, or a nil market bag, sends `filter` (when given), `locale: "en"`, an empty `dateRange`, and nothing else |
| Transport.LocaleOnWire | pkg/transport/jsonrpc.go:125-136 | `locale` is sent exactly when the bag is not an unrecognised one |
| Transport.FilterOnWire | pkg/transport/jsonrpc.go:125-136 | `filter` is sent exactly when a filter is given and the bag is absent or a market bag |
| Transport.MarketSelectionOnWire | pkg/transport/jsonrpc.go:188-205 | Granularity, maximum, market id(s) and selection id are sent exactly when set in the bag |
| Transport.MarketProjectionsOnWire | pkg/transport/jsonrpc.go:200-214 | Price, order, match and market projections are sent exactly when set in the bag |
| Transport.MarketParamsSendNoOrder | pkg/transport/jsonrpc.go:182-221 | A list or book call never sends instructions or customer references |
| Transport.PlaceParamsOnWire | pkg/transport/jsonrpc.go:223-242 | A place bag never sends a filter, always the locale, and each reference, market id and instruction list exactly when set |
| Transport.MethodNamesDistinct | pkg/transport/jsonrpc.go:140 | Different operations are sent under different method names |
| Transport.SentEnvelope | pkg/transport/jsonrpc.go:125-146 | The body a call sends holds exactly the version `2.0`, the prefixed method name, the call's id and its parameters, and decoding those parameters gives back the built ones up to empty-versus-nil slices |
| Transport.FilterOnlyCase | pkg/transport/jsonrpc_test.go:24-37 | A filter with no bag gives the filter and the locale |
| Transport.MarketParametersCase | pkg/transport/jsonrpc_test.go:38-65 | The market bag of the test gives exactly the expected parameters |
| Betting.MarketRange | pkg/betting/api.go:77-83 | Each given bound fills its side of the range, and a missing one leaves it empty |
| Betting.WithStartTime | pkg/betting/api.go:84-86 | The filter's start time becomes the range when a bound is given; otherwise the filter is unchanged |
| Betting.RangeSetIffBoundGiven | pkg/betting/api.go:84 | The range differs from the zero range exactly when a bound is given |
| Betting.StartTimeOnWire | pkg/betting/api.go:77-86 | With a bound, the filter's start time is sent, with `from` and `to` each present exactly when given |
| Betting.TimeRangesParams | pkg/betting/api.go:73-75 | ListTimeRanges' parameters set the filter, the granularity only when non-empty, and the locale, and leave every other `Params` field zero (on the wire an empty `dateRange` goes with them) |
| Betting.CatalogueParams | pkg/betting/api.go:147-155 | ListMarketCatalogue's parameters set the filter, the maximum, the projection and the locale, and leave every other `Params` field zero (on the wire an empty `dateRange` goes with them) |
| Betting.BookParams | pkg/betting/api.go:165-191 | The book calls send no filter; the market book its ids and projections, the runner book its market, runner and projections |
| Betting.CurrentOrdersParams | pkg/betting/api.go:200-203 | The present-but-zero date range gives the same parameters as none: the locale set and every other `Params` field zero (on the wire an empty `dateRange` goes with it) |
| Betting.PlaceOrderParamsOnWire | pkg/betting/api.go:212-213 | PlaceOrder's parameters reach the wire as an empty `dateRange` and nothing else |
| Betting.Finish | pkg/betting/api.go:49-57 | A transport error comes back unchanged; otherwise the result is what the payload decoded to, cleanly or not |
| Betting.DecodeFailureSwallowed | pkg/betting/api.go:54-57 | A payload that fails to decode gives success with the partial value |
| Betting.API.constructor | pkg/betting/api.go:43-45 | The facade holds the given client |
| Betting.API.NewAPI | pkg/betting/api.go:37-46 | Fails exactly when the client cannot be built, with an unreadable certificate bundle reported before an unusable key pair; otherwise a fresh facade over a fresh client with no session |
| Betting.API.ListEventTypes | pkg/betting/api.go:48-58 | One call `listEventTypes`, id 1, the caller's filter, no bag; then decode |
| Betting.API.ListCompetitions | pkg/betting/api.go:60-70 | One call `listCompetitions`, id 1, the caller's filter, no bag; then decode |
| Betting.API.ListTimeRanges | pkg/betting/api.go:72-97 | Updates the caller's filter as WithStartTime says, then one call `listTimeRanges` with the updated filter and the granularity bag; then decode |
| Betting.API.ListEvents | pkg/betting/api.go:99-109 | One call `listEvents`, id 1, the caller's filter, no bag; then decode |
| Betting.API.ListMarketTypes | pkg/betting/api.go:111-121 | One call `listMarketTypes`, id 1, the caller's filter, no bag; then decode |
| Betting.API.ListCountries | pkg/betting/api.go:123-133 | One call `listCountries`, id 1, the caller's filter, no bag; then decode |
| Betting.API.ListVenues | pkg/betting/api.go:135-145 | One call `listVenues`, id 1, the caller's filter, no bag; then decode |
| Betting.API.ListMarketCatalogue | pkg/betting/api.go:147-163 | One call `listMarketCatalogue` with the caller's filter and the maximum and projection bag; then decode |
| Betting.API.ListMarketBook | pkg/betting/api.go:165-180 | One call `listMarketBook`, no filter, the ids and projections bag; then decode |
| Betting.API.ListRunnerBook | pkg/betting/api.go:182-198 | One call `listRunnerBook`, no filter, the market, runner and projections bag; then decode |
| Betting.API.ListCurrentOrders | pkg/betting/api.go:200-210 | One call `listCurrentOrders`, no filter, a bag with a zero date range; then decode |
| Betting.API.PlaceOrder | pkg/betting/api.go:212-220 | One call `placeOrder` with an unrecognised bag; a transport error comes back unchanged, and success never carries a report |

## Left out

- TLS and certificate loading (`ioutil.ReadFile`, `x509.NewCertPool`, `tls.LoadX509KeyPair`) are foreign I/O. `NewJsonRPCClient` takes "the bundle is readable" and "the key pair loads" as inputs.
- The HTTP transport and `retryablehttp`'s backoff loop are library code. Only the `CheckRetry` decision is modelled, and each call sees the final exchange.
- Byte-level JSON is not modelled. Objects are maps, so member order and whitespace are not represented.
- Decoding a payload into result records is a caller-supplied decoder.
- The error returns of `json.Marshal` and `retryablehttp.NewRequest` (`jsonrpc.go:95-98, 143-150, 174-177`) are not modelled. Marshalling the request fails only on a NaN or infinite `float32` in an instruction (`types.go:209-225`), and the model drops float fields, so it cannot represent that input. Re-encoding `result` and building a POST to a constant URL do not fail.
- Error message texts are not modelled. Errors are structured values.
- `fmt.Printf` logging in `Do` (`jsonrpc.go:170`) is output only.
- The request context is only modelled where `CheckRetry` consults it. Attaching it to requests is not modelled.
- `time.Format(time.RFC3339)` is not modelled. Formatted times are opaque non-empty strings (`Betting.Timestamp`).
- The decoders match member names exactly. encoding/json also accepts a key that matches a field's name case-insensitively (`{"Locale":"en"}` fills `Params.Locale`), and the model does not.
- On a member of the wrong kind, the readers give the zero value. For a pointer field (`granularity`, `filter`, `priceProjection`, `marketStartTime`), encoding/json allocates the pointer before it reports the mismatch, so Go holds a pointer to a zero value where the model holds nil. Only input the encoders never write shows the difference.
- Numbers in the `result` payload are integers in the model (`Wire.JNum`). Go holds them as `float64` inside a `[]interface{}` (`types.go:58`), so fractional prices and totals cannot appear in a modelled payload. Nothing `Do` decides depends on the payload's contents.
- Float-valued fields are dropped: order sizes and prices, handicaps, matched and available totals, and odds.
- `ExchangePrices` and `Odds` are not modelled. The declared result records keep only their non-float fields.
- Concurrent access to the stored session is not modelled. The code has no locking.
- A nil `*PlaceInstructionParams` passed to `Do` makes Go panic. `Transport.Extra` cannot express it.
- Betting.API.ListTimeRanges: a nil filter with a bound given makes Go panic. The method requires a filter whenever a bound is given.
- `DefaultTimeout`, `Globals` and `TransportInterface` are not modelled. The facade is modelled over the concrete JSON-RPC client, its only implementation.
- `main.go` and `pkg/cmd/test.go` are not part of this model. They are the command-line and presentation layer.

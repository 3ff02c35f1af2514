# Solana explorer: metadata proxy and instruction helpers, modelled in Dafny

This project models the straight-line decision logic of the Solana explorer.

- The metadata proxy's `GET` handler. It has a feature gate, URI checks, one fetch, and a closure of fetch failures onto a fixed status set (RFC 9110 section 15: 400, 403, 404, 413, 415, 500, 504). It then composes the response headers and picks how to emit the body. A text body's `Content-Length` is recomputed as its UTF-8 byte length (RFC 3629 section 3).
- The three body processors (`processBinary`, `processJson`, `processText`). Each one classifies a read failure into one status.
- The upcasting of account metas and transaction instructions, and the system-program instruction parser with its right-biased merge of the caller's extra data.
- The inspector's fee-payer and program validators, the lookup-table address resolution, and the account line's message precedence.

Modules:

- `Common` (`common.dfy`): option, result and `byte`.
- `ProxyTypes` (`proxy_types.dfy`): JSON values, fetched data, header maps and the closed `ErrorStatus` set.
- `Utf8` (`utf8.dfy`) and `Decimal` (`decimal.dfy`): the encoding behind the recomputed Content-Length, and its decimal text.
- `Processors` (`processors.dfy`): the body processors, as functions from a read result to `Result<Processed, ErrorStatus>`.
- `ProxyRoute` (`proxy_route.dfy`): `GET` as a method `Get` plus the post-fetch method `Respond`. The calls into code outside the model (URL parsing, `decodeURIComponent`, `isHTTPProtocol`, `checkURLForPrivateIP`, `fetchResource`, `isJson`, `isText` and the error-message catalogue) are the function-typed fields of an `Env` value. `Get` returns a ghost trace of the stages it ran. `IsRun` states that each stage ran only because the one before passed, and every lemma about ordering is stated over `IsRun`.
- `ParsedTx` (`parsed_tx.dfy`), `SystemParser` (`system_parser.dfy`), `AccountValidators` (`account_validators.dfy`).

Points where the behaviour is easy to misread:

- A rejection from `checkURLForPrivateIP` (a failed lookup) is answered with 400, because the `catch` at route.ts:61-64 handles it together with the parse errors. Only a reported private address gives 403.
- On the JSON path, only string data gets its Content-Type forced to `application/json; charset=utf-8`. Other JSON values keep the forwarded Content-Type, which is upstream's or the default.
- The "missing required headers → 400" branch is kept in `Respond`, but it is unreachable. The code asks whether any header value is `null`; every value is a string there, so the model's header values are plain strings and the branch tests instead that each mandatory name is present, which `ForwardedDefaults` proves always holds.
- `intoParsedTransaction` returns the empty object for a versioned message. Its test expects message fields that the code does not produce.

## Model

| member | source | states |
|---|---|---|
| ProxyRoute.SearchParam | app/api/metadata/proxy/route.ts:40 | Absent exactly when no parameter has the name. Otherwise it is the value of the first parameter with that name. |
| ProxyRoute.RespondWithError | app/api/metadata/proxy/route.ts:23-25 | An error response with the given status. Its message is the override when one is given, and the catalogue's text for the status otherwise. |
| ProxyRoute.FetchFailureResponseStatus | app/api/metadata/proxy/route.ts:89-100 | The status is always one of 413, 415, 500 and 504. One of those four passes through unchanged. Any other code, or none, becomes 500. |
| ProxyRoute.OutboundHeaders | app/api/metadata/proxy/route.ts:66-69 | The outbound headers are exactly Content-Type `application/json; charset=utf-8` and the configured User-Agent. |
| ProxyRoute.ForwardedDefaults | app/api/metadata/proxy/route.ts:103-120 | Cache-Control, Content-Type and Etag are always forwarded. Each keeps upstream's value, even an empty one, and only an absent one becomes `no-cache`, the JSON type or `no-etag`. Content-Length is forwarded exactly when upstream's is non-empty. No other header is forwarded. So the missing-header 400 cannot happen. |
| ProxyRoute.Forwarded | app/api/metadata/proxy/route.ts:103-115 | The response header map before the body is considered. Its properties are stated by `ForwardedDefaults`. |
| ProxyRoute.TextContentLength | app/api/metadata/proxy/route.ts:162-170 | Canonical decimal text (at least one digit, digits only, no leading zero) whose numeric value is the UTF-8 byte length of the text. With `Decimal.CanonicalUnique` this is exactly `byteLength.toString()`. |
| ProxyRoute.Emit | app/api/metadata/proxy/route.ts:122-175 | The dispatch on the fetched data. Its properties are stated by `EmitOrder`. |
| ProxyRoute.EmitOrder | app/api/metadata/proxy/route.ts:122-175 | Binary data wins whatever the content-type predicates say. JSON string data keeps every forwarded header except Content-Type, which becomes the JSON type. Other JSON data is serialised with the forwarded headers unchanged, so upstream's Content-Type (or the default) is kept. Text string data keeps every forwarded header except Content-Length, which is the canonical decimal UTF-8 byte length. Non-string data on the text path throws. 415 comes exactly when the data is not binary and neither JSON nor text applies. |
| ProxyRoute.Respond | app/api/metadata/proxy/route.ts:103-175 | The response, built with a local header map that is reassigned step by step, equals `Emit` over the per-name forwarding rule `Forwarded`. |
| ProxyRoute.Get | app/api/metadata/proxy/route.ts:10-101 | The answer is 404 exactly when the flag is not "true", and then the trace is empty. The trace is always a run under the configuration `LoadConfig` builds from the module-level variables: it starts at the request, and each stage ran only after the previous one passed and was fed that stage's result. The answer is the rejection status of the last stage, or what `Emit` makes of the fetched data. |
| ProxyRoute.RunOrder | app/api/metadata/proxy/route.ts:31-75 | Every run lists its stages in pipeline order (query, decode, parse, scheme, address, fetch) and has at most six stages. |
| ProxyRoute.FetchOnlyAfterChecks | app/api/metadata/proxy/route.ts:37-75 | A fetch runs only as the sixth stage, and only after every check passed. The `uri` was present and non-empty, and it decoded to exactly the fetched target. That target parses to an HTTP(S) URL with a public address. The fetch carries the outbound headers and the configured timeout and size. |
| ProxyRoute.FetchCarriesSettings | app/api/metadata/proxy/route.ts:10-16 | The fetch's User-Agent is the variable's value whenever it is set, an empty value included, and "Solana Explorer" otherwise. Its size limit and timeout are `Number` of their variable when it is set and non-empty, and 10 000 000 and 10 000 otherwise. |
| ProxyRoute.Outcome | app/api/metadata/proxy/route.ts:31-175 | The answer once a run's last stage has run. Its statuses are stated by `OutcomeStatuses`. |
| ProxyRoute.AddressCheckAfterProtocol | app/api/metadata/proxy/route.ts:50-60 | The private-address check runs only as the fifth stage, right after a passed scheme check of the same URL. |
| ProxyRoute.OutcomeStatuses | app/api/metadata/proxy/route.ts:37-120 | A run's stages never answer 404. They answer 403 exactly when the address check reports private. 400 comes exactly from a stage before the fetch that did not pass and is not a private-address report: an absent or empty `uri`, a decode or parse failure, a non-HTTP scheme, or a failed address lookup. After the fetch the status is 413, 415, 500 or 504. |
| ProxyRoute.FetchSignalsPassThrough | app/api/metadata/proxy/route.ts:89-100 | Every status the fetch step rejects with reaches the caller unchanged. |
| ProxyRoute.ProcessorStatusesPassThrough | app/api/metadata/proxy/route.ts:89-100 | Every status a body processor fails with reaches the caller unchanged. |
| Processors.FetchFailureStatus | app/api/metadata/proxy/__tests__/fetch-resource.spec.ts:61-125 | An unknown media type or malformed JSON gives 415, a size-limit rejection 413, a timeout 504, and any other rejection 500. Each iff holds in both directions. |
| Processors.ProcessBinary | app/api/metadata/proxy/feature/processors.ts:8-26 | Succeeds exactly when the buffer read succeeds, returning the buffer with the response's own headers. A failure is 413 exactly when the size matcher recognises it, and 500 otherwise. |
| Processors.ClassifyJsonFailure | app/api/metadata/proxy/feature/processors.ts:48-59 | A size failure gives 413 whatever else holds. Otherwise a `SyntaxError` gives 415, and anything else gives 500. |
| Processors.ProcessJson | app/api/metadata/proxy/feature/processors.ts:31-61 | Succeeds exactly when the text read and the parse of that whole text both succeed, returning the parsed value with the original headers. A failure of either step goes through the single classifier. |
| Processors.ProcessText | app/api/metadata/proxy/feature/processors.ts:66-77 | Succeeds exactly when the text read succeeds, returning the text with the original headers. Every failure, a size failure included, is 500. |
| Processors.ProcessorStatusSets | app/api/metadata/proxy/feature/processors.ts:8-77 | The error statuses are within {413, 500} for binary, {413, 415, 500} for JSON and {500} for text. |
| Utf8.Encode | app/api/metadata/proxy/route.ts:163 | `Buffer.from(data, 'utf-8')`, one character after another. Its properties are stated by `DecodeEncode` and `ByteLengthBounds`. |
| Utf8.EncodeChar | app/api/metadata/proxy/route.ts:163 | A character takes 1 to 4 octets by the RFC 3629 table. Its lead octet announces that length and the others are continuation octets. |
| Utf8.DecodeEncode | app/api/metadata/proxy/route.ts:163-164 | Decoding the encoded text gives the text back, so the counted octets are exactly the text's encoding. |
| Utf8.ByteLengthBounds | app/api/metadata/proxy/route.ts:162-170 | The byte length is at least the UTF-16 length (JavaScript's `length`) and at most three times it. The two are equal exactly for ASCII text. |
| Decimal.NatToDecimal | app/api/metadata/proxy/route.ts:170 | `toString()` of a length is non-empty, made only of digits, and has no leading zero. |
| Decimal.CanonicalUnique | app/api/metadata/proxy/route.ts:170 | A canonical decimal text is determined by its value: it is exactly `NatToDecimal` of that value. |
| Decimal.DecimalRoundTrip | app/api/metadata/proxy/route.ts:170 | Reading the decimal text back gives the number. |
| ParsedTx.UpcastAccountMeta | app/utils/parsed-tx.ts:14-27 | The address is the key's base58 text. The role's signer and writable flags are the meta's, and the role numbers 3, 2, 1 and 0 follow the table. |
| ParsedTx.RoleDeterminesFlags | app/utils/parsed-tx.ts:17-25 | Equal roles come from equal flags, so the role map is injective. |
| ParsedTx.UpcastKeys | app/utils/parsed-tx.ts:34 | Same length as the keys. Element i is the upcast of key i. |
| ParsedTx.UpcastTransactionInstruction | app/utils/parsed-tx.ts:32-38 | One account per key, in order, each the upcast of its key. The data is unchanged, and the program address comes from the program id. |
| ParsedTx.IntoParsedInstruction | app/utils/parsed-tx.ts:50-54 | The result is exactly what the given parser makes of the instruction and the extra data. |
| ParsedTx.IntoParsedTransaction | app/utils/parsed-tx.ts:56-69 | Fails with "Not implemented" exactly for a transaction. Returns the empty object for a versioned message. |
| SystemParser.Fields | app/utils/parsers/index.ts:12-16 | The record becomes an object with exactly `parsed`, `program` and `programId`, carrying its fields. |
| SystemParser.Spread | app/utils/parsers/index.ts:34-37 | The keys are the union. Every key of the extra data overrides, every other key survives, and without extra data the result is the record itself. |
| SystemParser.SystemProgramTransactionInstructionParser | app/utils/parsers/index.ts:8-40 | The keys are the three fields plus the extra data's keys, and extra values always win. Without an override, `programId` is the instruction's. `program` is "system" exactly for a transfer and "" otherwise. `parsed` is `{info: decoder output, type: "transfer"}` for a transfer and `{}` otherwise. |
| AccountValidators.FeePayerCheck | app/components/inspector/AddressWithContext.tsx:12-20 | Zero lamports gives "Account doesn't exist" whatever the owner or fee. Then a non-system owner gives the owner message. "Insufficient funds for fees" comes exactly when the account exists, is system-owned and has less than the fee. There is no error exactly when none of these holds. |
| AccountValidators.CreateFeePayerValidator | app/components/inspector/AddressWithContext.tsx:12-13 | The validator returned applies the fee-payer check for that fee to every account. |
| AccountValidators.FeePayerMonotone | app/components/inspector/AddressWithContext.tsx:16-19 | An account accepted at a fee is accepted at every smaller fee. |
| AccountValidators.ProgramValidator | app/components/inspector/AddressWithContext.tsx:23-27 | Zero lamports gives "Account doesn't exist". Otherwise a non-executable account gives the executable message. There is no error exactly for an existing executable account. |
| AccountValidators.ResolveLookupTableAddress | app/components/inspector/AddressWithContext.tsx:38-60 | No table, or an empty string, means loading. A non-empty string is "Invalid Lookup Table". An index at or past the address count is "Invalid Lookup Table Index". Otherwise the result is the address at the index. Each iff holds in both directions. |
| AccountValidators.AccountInfoView | app/components/inspector/AddressWithContext.tsx:96-110 | Loading exactly while the account is unknown. A validator's non-empty message is shown exactly when there is one. Only then comes the zero-lamport message, and then the details. |
| AccountValidators.ValidatorMessageFirst | app/components/inspector/AddressWithContext.tsx:105-110 | For a zero-lamport account, either validator's warning is shown instead of the muted "doesn't exist" line. |

## Left out

- Network, DNS, timeouts and streaming size enforcement: `fetchResource` is an `Env` field returning an abstract outcome. `app/api/metadata/proxy/feature/index.ts`, `feature/ip.ts` and `feature/errors.ts` are not part of this model.
- `isHTTPProtocol`, `checkURLForPrivateIP`, `isJson`, `isText`, `matchMaxSizeError`, `new URL` and `decodeURIComponent` are uninterpreted. The IP-range table and the error-text matching are not modelled.
- The error catalogue `errors[status].message` is a parameter, because its entries are in `feature/errors.ts`.
- Re-validation of redirect targets is not modelled, because the fetch is one abstract step.
- `process.env`: the feature flag is a parameter read per request, and the three module-level variables are a `Settings` value given to `Get`. `Number(...)` is an abstract conversion, so NaN and fractional values are not modelled.
- `NextResponse` and `Headers` construction are not modelled. This includes the headers of error responses, the serialisation that `NextResponse.json` performs, and case-insensitive header lookup: upstream header names are taken as lower-case.
- `console.*` logging is not modelled.
- JSON numbers are integers, and JavaScript strings with lone surrogates cannot be expressed, since Dafny characters are scalar values.
- The text branch given non-string data is modelled as `Uncaught`. What `Buffer.from` does with arrays or objects, and how the framework answers a thrown exception, are not modelled.
- `identifySystemInstruction` is total here. Its throw for unidentifiable data, which would escape the parser, is not modelled.
- `address()` validation and base58 encoding are abstract (`toBase58`), and so is `parseTransferSolInstruction`.
- Lookup-table indices are `nat`, because message indices are unsigned bytes; a negative index is not modelled.
- React hooks, the loading/fetch effect, `hideInfo`, owner labels, `lamportsToSolString` and `Intl.NumberFormat` are presentation and are not modelled. So are `TokenDetailsCard.tsx` and `InstructionsSection.tsx`.
- Tests of `intoPartialParsedTransaction`, `privateUpcastMessageCompiledInstruction` and `intoParsedTransactionFromMessage` target functions that `app/utils/parsed-tx.ts` does not contain.

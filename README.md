# ALEPE open-data client: a Dafny model

This project models the deterministic core of the MCP server for the open-data
API of ALEPE, the legislative assembly of Pernambuco. That core has three pieces:

- **the filter catalog** (`src/config.py`). This covers which filter keys each
  endpoint accepts, the rule for each key (a list of values or an integer
  range), the supported formats, the seven endpoint names and the retry and
  rate-limit defaults. Module `Config`.
- **request validation and the query string** (`src/validators.py`).
  - `validate_request_parameters` picks the request class for an endpoint
    name. It adds `endpoint` to the caller's dict when that key is absent, then
    builds the class. The model checks the fields in declaration order:
    `endpoint`, `formato` and `filters` first, then the class's own fields.
  - `build_query_params` writes `formato` first, then the class's truthy
    fields, then every filter except `formato`, as strings.
  - Modules `Validators` and `QueryBuilder`, with the lemmas in
    `ValidationFacts` and `QueryFacts`.
- **the fetch engine** (`src/http_client.py`).
  - The token-bucket `RateLimiter` is a class whose `Acquire(now)` updates
    `tokens` and `lastUpdate`, in module `RateLimiting`.
  - `_build_url`, the bounded retry loop with exponential backoff in
    `_make_request`, and the format dispatch and exception mapping of
    `fetch_data`, in module `HttpClient`.

Python's dict is modelled in `OrderedDict` as an association list that keeps
insertion order. Assigning to a present key keeps that key's place.
`Builtins` models `int()`, `str()`, `str.lower()` and truthiness on the
scalar values the validators see.

Several things are passed in as parameters rather than modelled:

- `datetime.now().year` is `currentYear`;
- the event loop's clock is `now`;
- `str()` of a float is `floatStr`;
- `urlencode` is `urlencode`;
- `response.json()` is `parseJson`;
- the network is an oracle `transport(url, k)`, which gives what attempt `k`
  at `url` returns.

Where the project's prose and its code differ, the model follows the code:

- An `endpoint` key already in the caller's dict wins over the endpoint name
  (src/validators.py:220-221). For an endpoint name without its own class, the
  base class then accepts any known endpoint. For the other names, the
  subclass's literal rejects a different one.
- Only the `filters` dict is checked against the catalog rules. The class
  fields `situacao`, `vinculo`, `cargo`, `lotacao`, `modalidade` and
  `fornecedor` are not checked.
- A filter `ano` is capped at 2025 (src/config.py:106). A field `ano` is capped
  at the current year (src/validators.py:133).
- Python's `$` also matches before one trailing newline, so `"PT\n"` passes
  the party pattern.
- A rate of zero requests per minute makes `acquire` raise ZeroDivisionError.
  It does not wait forever.
- `TimeoutException` is a subclass of `RequestError` in httpx, so the timeout
  clause of `fetch_data` is never reached. A timeout is reported as a
  connection error.
- With `max_retries <= 0` no attempt is made. `raise None` then raises a
  TypeError, which `fetch_data` does not catch.

## Model

| member | source | states |
|---|---|---|
| Config.SupportedFormatsAreJsonThenCsv | src/config.py:47-50 | the supported formats are exactly `json` then `csv` |
| Config.SevenEndpoints | src/config.py:53-62 | the available endpoints are the seven names, in declaration order, with no name twice |
| Config.AvailableEndpointIff | src/config.py:53-62 | a name is available iff it is one of the seven |
| Config.FilteredEndpointsAreAvailable | src/config.py:93-99 | every key of ENDPOINT_FILTERS is an available endpoint; `cargos`, `lotacoes` and every unknown name have no allow-list |
| Config.AllowedFiltersTable | src/config.py:93-99 | the allow-list of each endpoint, key by key and in order |
| Config.EnumeratedRules | src/config.py:103-105 | the value lists for `formato`, `situacao` and `vinculo` |
| Config.RangeRules | src/config.py:106-107 | the `ano` rule holds iff int(x) succeeds and lies in 2000..2025; the `mes` rule iff it lies in 1..12 |
| Config.RuleForTable | src/config.py:102-108 | FILTER_VALIDATIONS: the rule of each key, and no rule for any other key |
| Config.RuleAccepts | src/validators.py:64-79 | a list rule accepts exactly the strings in the list, compared case-sensitively; a range rule accepts exactly the values whose int() is in range; a failed int() is a rejection |
| Config.RetryAndRateDefaults | src/config.py:24-38 | max_retries is 3, retry_delay is 1.0 and rate_limit_requests is 60 |
| Builtins.NatToStringDigits | src/validators.py:246 | `str(n)` is a non-empty run of digits with no leading zero whose value is n |
| Builtins.IntToString | src/validators.py:246 | `str(i)` is the decimal digits of i with no leading zero and value i, after a `-` exactly when i is negative |
| Builtins.IntStringRoundTrip | src/config.py:106 | `int(str(i)) == i` for every int |
| Builtins.ParseUnsigned | src/config.py:106 | `int()` reads a run of digits as its decimal value |
| Builtins.ParseNegative | src/config.py:106 | `int()` reads a minus sign and digits as the negated value |
| Builtins.ParseInt | src/config.py:106 | `int(s)` succeeds iff the stripped text is digits, or a sign followed by digits; the value is the digits' value, negated after `-` |
| Builtins.SkipsSpaceAndNewline | src/config.py:106 | `int(" 7\n")` is 7: a surrounding space and newline are skipped |
| Builtins.KeepsInformationSeparator | src/config.py:106 | `int("\x1c2020")` fails: U+001C is not skipped, though `str.isspace()` calls it whitespace |
| Builtins.TrimLeft | src/config.py:106 | the result is a suffix that starts with none of the whitespace `int()` skips, and everything cut off is such whitespace: tab to carriage return, the space, and Unicode whitespace beyond ASCII, but not U+001C..U+001F |
| Builtins.TrimRight | src/config.py:106 | the result is a prefix that ends with none of the whitespace `int()` skips, and everything cut off is such whitespace |
| Builtins.TruncToInt | src/config.py:107 | `int(x)` of a float truncates toward zero: it is within 1 of x, on x's side of zero |
| Builtins.ToInt | src/config.py:106-107 | `int(x)` fails exactly on None and on unparsable text; a bool is 0 or 1, an int is itself, a float is truncated, text is parsed |
| Builtins.ValueToString | src/validators.py:288 | `str(x)`: None, True and False by name, text unchanged, a float by its repr, and an int as `str(i)`, its canonical decimal text, which `int()` reads back as the same int |
| Builtins.Lower | src/validators.py:34 | `lower()` keeps the length and lowers each character |
| Builtins.LowerIdempotent | src/validators.py:34-39 | lowering twice is lowering once, so the stored formato is already lower case |
| Validators.ValidateEndpoint | src/validators.py:19-28 | succeeds iff the name is an available endpoint, returns it unchanged, and otherwise fails with UnknownEndpoint |
| Validators.ValidateFormato | src/validators.py:30-39 | succeeds iff the lowered value is supported, and then returns the lowered value; otherwise fails with UnsupportedFormat |
| Validators.FilterEntryErrorCases | src/validators.py:55-79 | one entry passes iff its key is allowed (empty allow-list, on the list, or `formato`) and its rule, when it has one, accepts the value; an unknown key is reported as such before its value is looked at; any other error is the key's rule rejecting the value |
| Validators.CheckFilters | src/validators.py:41-81 | the dict is accepted iff it is empty, the endpoint did not validate, or every entry passes; it is then returned unchanged, and otherwise the first failing entry's error is reported |
| Validators.FirstFilterError | src/validators.py:55-79 | none iff every entry passes; otherwise the error of an entry that fails when every earlier entry passed |
| Validators.FirstFilterErrorAt | src/validators.py:55-79 | when entry i is the first that fails, its error is the one reported |
| Validators.ValidateFilters | src/validators.py:41-81 | the loop returns the dict unchanged when it is empty or the endpoint is missing, and otherwise the dict or the first failing entry's error |
| Validators.ValidatePartido | src/validators.py:92-98 | succeeds iff the party is absent, empty or matches `^[A-Z]{2,10}$` (one trailing newline allowed), and returns it unchanged |
| Validators.MatchesPartido | src/validators.py:96-97 | a match has 2 to 11 characters, all in A-Z except a final newline; for all-capital text it matches iff the length is 2 to 10 |
| Validators.ValidateRange | src/validators.py:100-106 | succeeds iff the value is absent, zero or within the bounds, and returns it unchanged; otherwise fails naming the value and bounds |
| Validators.ValidateValor | src/validators.py:137-143 | succeeds iff the amount is absent or not negative |
| Validators.EndpointField | src/validators.py:15-28 | an accepted endpoint is available and is the literal of a subclass; the base class requires the field, and a subclass defaults to its literal; a string that is available (and is the subclass's literal) is accepted |
| Validators.FormatoField | src/validators.py:16-39 | absent gives "json"; a string is accepted iff its lowered form is supported, and is stored lowered |
| Validators.FiltersField | src/validators.py:41-81 | absent gives the empty dict; a dict is accepted iff every entry passes the endpoint's checks, and is kept unchanged |
| Validators.StrField | src/validators.py:113-116 | an `Optional[str]` accepts exactly a missing value, None or a string; a string is kept as given, missing and None give None, and anything else is a type error on that field |
| Validators.IntField | src/validators.py:90 | an `Optional[int]` accepts exactly a missing value, None or an int; an int is kept as given, missing and None give None, and anything else is a type error on that field |
| Validators.FloatField | src/validators.py:124-125 | an `Optional[float]` accepts exactly a missing value, None, an int or a float; a float is kept, an int is widened to the same number, missing and None give None, and anything else is a type error on that field |
| Validators.ParlamentarFields | src/validators.py:84-106 | accepted iff the party is None or a string that passes the party check, the status is None or a string, and the legislature is None or an int in 1..20 (or 0); the request then holds the given formato, filters and field values |
| Validators.ServidorFields | src/validators.py:109-116 | accepted iff each of the four fields is None or a string; the request then holds the given formato, filters and field values |
| Validators.ContratoFields | src/validators.py:119-143 | accepted iff the year is None or an int in 2000..currentYear (or 0), each amount is None or a non-negative number, and the supplier is None or a string; the request then holds the given values, an int amount widened |
| Validators.LicitacaoFields | src/validators.py:146-161 | accepted iff the year is None or an int in 2000..currentYear (or 0) and kind and status are None or strings; the request then holds the given values |
| Validators.RemuneracaoFields | src/validators.py:164-187 | accepted iff the year is None or an int in 2000..currentYear, the month None or an int in 1..12 (each or 0), and the bond None or a string; the request then holds the given values |
| Validators.Construct | src/validators.py:224 | a built request is well formed, of the requested class, with the class's literal endpoint and equal to any `endpoint` argument; formato is "json" when absent and otherwise the lower-cased given string; filters are the given dict, or empty when absent or None; each own field holds the value given for it |
| Validators.ClassFor | src/validators.py:208-217 | the five names with a subclass map to it, whose literal is that name; every other name maps to the base class |
| Validators.WithEndpoint | src/validators.py:220-221 | `endpoint` is added only when absent; an existing value is never overwritten |
| Validators.ValidateParameters | src/validators.py:190-224 | an accepted request is well formed and of the class mapped to the name; its endpoint is the name when no `endpoint` argument is given, and that argument otherwise; an unavailable name without an `endpoint` argument is rejected; each own field holds the value given for it |
| Validators.ParamDict.constructor | src/validators.py:192 | the caller's parameter dict holds the given items |
| Validators.ValidateRequestParameters | src/validators.py:190-224 | the caller's dict gains `endpoint` only when absent, and the result is the mapped class built from the updated dict |
| ValidationFacts.ValidateParametersSound | src/validators.py:208-224 | every accepted request is well formed, of the mapped class, and has the caller's `endpoint` argument or else the endpoint name |
| ValidationFacts.CommonFieldsRoundTrip | src/validators.py:12-81 | the endpoint, formato and filters of a well-formed request are rebuilt from its own arguments |
| ValidationFacts.ConstructRoundTrip | src/validators.py:224 | every well-formed request is rebuilt, unchanged, from its own keyword arguments |
| ValidationFacts.OwnFieldsRoundTrip | src/validators.py:84-187 | each subclass's own fields are rebuilt from a well-formed request's arguments |
| ValidationFacts.ParlamentarRoundTrip | src/validators.py:84-106 | the deputies' fields round-trip |
| ValidationFacts.ServidorRoundTrip | src/validators.py:109-116 | the civil servants' fields round-trip |
| ValidationFacts.ContratoRoundTrip | src/validators.py:119-143 | the contracts' fields round-trip |
| ValidationFacts.LicitacaoRoundTrip | src/validators.py:146-161 | the tenders' fields round-trip |
| ValidationFacts.RemuneracaoRoundTrip | src/validators.py:164-187 | the pay fields round-trip |
| ValidationFacts.ValidateParametersRoundTrip | src/validators.py:208-224 | a well-formed request, under the endpoint name mapped to its class, is accepted back unchanged |
| ValidationFacts.UnknownEndpointRejected | src/validators.py:23-27 | an unknown name with no `endpoint` argument is rejected as unknown, even though it falls back to the base class |
| ValidationFacts.DefaultsForEveryEndpoint | src/validators.py:208-224 | with no arguments each of the seven endpoints yields its class with formato "json" and no filters |
| ValidationFacts.CallerEndpointWins | src/validators.py:220-221 | a caller's `endpoint` argument overrides the name on the base class, and is rejected by a subclass when it differs |
| ValidationFacts.FormatoSpellings | src/validators.py:34-39 | "JSON" and "Csv" are stored as "json" and "csv"; "xml" is rejected |
| ValidationFacts.FiltersWithoutAllowList | src/validators.py:53-79 | an endpoint with no allow-list accepts any key without a rule; a `formato` filter "JSON" is rejected, case-sensitively |
| ValidationFacts.AllowListRejects | src/validators.py:57-61 | a key missing from the allow-list is rejected, naming the list |
| ValidationFacts.AllowListAdmitsFormato | src/validators.py:57 | `formato` passes an allow-list it is not on |
| ValidationFacts.RangeFilter | src/validators.py:64-72 | where the key is allowed, an `ano` or `mes` filter passes iff int() succeeds and is within the rule's range |
| ValidationFacts.AnoFilterBounds | src/config.py:106 | the `ano` filter accepts exactly 2000..2025, as an int or as its text, whatever the current year; None is rejected |
| ValidationFacts.ContratosTakesAno | src/config.py:96 | `contratos` allows an `ano` filter |
| ValidationFacts.MesFilterBounds | src/config.py:107 | the `mes` filter accepts exactly 1..12; 12.9 is truncated and accepted |
| ValidationFacts.PartidoExamples | src/validators.py:96-97 | "PT", "PSDB", "", None and "PT\n" pass; "pt", "P" and eleven letters fail |
| ValidationFacts.ZeroSkipsRangeChecks | src/validators.py:104 | 0 skips the range checks, while 21 and -5.0 are rejected |
| ValidationFacts.NegativeValorRejected | src/validators.py:141-142 | a contracts query with `valor_min` -5 is rejected on that field |
| ValidationFacts.AnoFieldUsesCurrentYear | src/validators.py:158-160 | the tenders' year field accepts the current year and rejects the next |
| ValidationFacts.ToolCallByParty | src/validators.py:84-106 | the deputies' query with formato "json" and party "PT" is accepted as exactly that request, with no filters and no other field set |
| OrderedDict.Get | src/validators.py:286 | a lookup finds something iff the key is present |
| OrderedDict.GetAt | src/validators.py:286 | in a dict with no key twice, the entry at each position is what its key looks up |
| OrderedDict.Put | src/validators.py:288 | assignment keeps the key list when the key is present and appends it otherwise; a new key is appended; other positions are untouched |
| OrderedDict.PutGet | src/validators.py:288 | after `d[k] = v`, `d[k]` is v and every other key reads as before |
| OrderedDict.PutKeepsNoDup | src/validators.py:288 | assignment never creates a duplicate key |
| OrderedDict.PutAllKeepsPrefix | src/validators.py:286-288 | assigning a sequence of pairs never moves or drops an existing key, and never touches an entry under a key it does not assign |
| OrderedDict.PutAllGet | src/validators.py:286-288 | after assigning a duplicate-free sequence of pairs, its keys read their assigned values and other keys read as before |
| OrderedDict.PutAllKeepsNoDup | src/validators.py:286-288 | assigning pairs keeps every key once |
| OrderedDict.PutAllFresh | src/validators.py:286-288 | assigning duplicate-free pairs whose keys are all new appends them at the end, in their order |
| OrderedDict.GetAppend | src/validators.py:237-282 | a lookup in a concatenation finds the first part's entry, else the second's |
| QueryBuilder.StrEntry | src/validators.py:243-244 | a string field adds its entry iff it is set and non-empty |
| QueryBuilder.IntEntry | src/validators.py:245-246 | an int field adds `str()` of itself iff it is set and non-zero |
| QueryBuilder.RealEntry | src/validators.py:261-262 | a float field adds `str()` of itself iff it is set and non-zero |
| QueryBuilder.FieldParams | src/validators.py:239-282 | the base class adds no field parameters; the keys a subclass adds are an in-order subsequence of its declared fields |
| QueryBuilder.ParlamentarParams | src/validators.py:240-246 | the deputies' keys come in the order party, status, legislature, each at most once |
| QueryBuilder.ServidorParams | src/validators.py:248-256 | the civil servants' keys come in the order bond, status, post, unit, each at most once |
| QueryBuilder.ContratoParams | src/validators.py:258-266 | the contracts' keys come in the order year, minimum, maximum, supplier, each at most once |
| QueryBuilder.LicitacaoParams | src/validators.py:268-274 | the tenders' keys come in the order year, kind, status, each at most once |
| QueryBuilder.RemuneracaoParams | src/validators.py:276-282 | the pay keys come in the order year, month, bond, each at most once |
| QueryBuilder.FilterParams | src/validators.py:285-288 | no more parameters than filters, and none named `formato` |
| QueryBuilder.QueryParams | src/validators.py:237-290 | the returned dict starts with `formato` and the request's value, and the field keys follow it in their own order: filters never move them |
| QueryBuilder.BuildQueryParams | src/validators.py:227-290 | the dict built step by step is `formato`, then the fields, with the filters assigned over them in order |
| QueryBuilder.AssignFields | src/validators.py:237-282 | `formato`, then the truthy fields of the request's class in declaration order |
| QueryBuilder.AssignParlamentarFields | src/validators.py:240-246 | `formato`, then party, status and legislature when set |
| QueryBuilder.AssignServidorFields | src/validators.py:248-256 | `formato`, then bond, status, post and unit when set |
| QueryBuilder.AssignContratoFields | src/validators.py:258-266 | `formato`, then year, minimum, maximum and supplier when set |
| QueryBuilder.AssignLicitacaoFields | src/validators.py:268-274 | `formato`, then year, kind and status when set |
| QueryBuilder.AssignRemuneracaoFields | src/validators.py:276-282 | `formato`, then year, month and bond when set |
| QueryBuilder.AssignIfSet | src/validators.py:241-242 | assigning a field not yet in the dict appends it and adds exactly its key |
| QueryBuilder.AssignFilters | src/validators.py:285-288 | the filter loop assigns every filter except `formato`, in order |
| QueryBuilder.AssignFilterStep | src/validators.py:286-288 | one turn of the loop assigns the filter's `str()` unless it is `formato` |
| QueryFacts.FieldKeys | src/validators.py:237-282 | the field parameters are on the endpoint's allow-list, no key twice and never `formato`; the base class adds none |
| QueryFacts.FieldNamesAllowed | src/config.py:93-99 | each subclass's own fields are exactly its endpoint's allow-list |
| QueryFacts.ParlamentarFieldKeys | src/validators.py:240-246 | the deputies' field keys are distinct and among `partido`, `situacao` and `legislatura` |
| QueryFacts.ServidorFieldKeys | src/validators.py:248-256 | the civil servants' field keys are distinct and among their four fields |
| QueryFacts.ContratoFieldKeys | src/validators.py:258-266 | the contracts' field keys are distinct and among their four fields |
| QueryFacts.LicitacaoFieldKeys | src/validators.py:268-274 | the tenders' field keys are distinct and among their three fields |
| QueryFacts.RemuneracaoFieldKeys | src/validators.py:276-282 | the pay field keys are distinct and among `ano`, `mes` and `vinculo` |
| QueryFacts.FilterParamsGet | src/validators.py:285-288 | each filter key other than `formato` is sent with its value's `str()`; no key twice |
| QueryFacts.FilterParamsKeys | src/validators.py:285-288 | the filter loop sends the filters' keys in the dict's own order, with `formato` left out |
| QueryFacts.FilterParamsAppended | src/validators.py:285-288 | filters whose keys other than `formato` are new to the dict are appended after its entries, in their order |
| QueryFacts.QueryAppendsFilters | src/validators.py:237-290 | when no filter names a set field, the query is `formato`, then the fields, then the filters other than `formato` in their own order |
| QueryFacts.QueryStartsWithFormato | src/validators.py:237 | the first parameter is always `formato`, with the request's value |
| QueryFacts.QueryNoDupKeys | src/validators.py:237-288 | no key is sent twice |
| QueryFacts.QueryLookup | src/validators.py:237-288 | the value sent for each key: formato for `formato`; else the filter's `str()`; else the field when set |
| QueryFacts.QueryKeysAllowed | src/validators.py:237-288 | for validated filters and an endpoint with an allow-list, only `formato` and allowed keys are sent |
| QueryFacts.FilterKeyAllowed | src/validators.py:57-61 | a validated filter key is `formato` or on the allow-list |
| QueryFacts.ParlamentaresByParty | src/validators.py:240-246 | deputies with party "PT" give `[("formato","json"),("partido","PT")]` |
| QueryFacts.FilterOverridesField | src/validators.py:284-288 | a filter replaces the field of the same name in place; a `formato` filter never displaces the first entry |
| RateLimiting.Min | src/http_client.py:255-258 | `min(a, b)` is at most both, and is one of them |
| RateLimiting.Refilled | src/http_client.py:255-258 | the refill never exceeds `rpm` tokens |
| RateLimiting.RefillNeverDrains | src/http_client.py:254-258 | when the clock has not gone back, a bucket in bounds does not shrink on refill |
| RateLimiting.AcquireStep | src/http_client.py:248-268 | one `acquire` records now; it lets the call through at once iff the refill reaches a token, taking one; at zero rpm without a token it raises ZeroDivisionError; otherwise it empties the bucket and waits `(1 - tokens) * 60 / rpm` seconds |
| RateLimiting.RateLimiter.constructor | src/http_client.py:236-246 | a new limiter is full (`rpm` tokens), last updated now |
| RateLimiting.RateLimiter.Acquire | src/http_client.py:248-268 | the new tokens, the new last update and the way the call was let through are one step of the bucket |
| RateLimiting.AcquireInBounds | src/http_client.py:254-268 | at a positive rate one step leaves 0..rpm tokens, records now and never raises |
| RateLimiting.TakesOneToken | src/http_client.py:267-268 | with a token after the refill, exactly one is taken and nobody waits |
| RateLimiting.WaitsForOneToken | src/http_client.py:262-266 | otherwise the wait is positive and is exactly the time to reach one token, and the bucket is emptied |
| RateLimiting.WaitAtMostOneInterval | src/http_client.py:262-263 | from a bucket in bounds, no wait exceeds 60/rpm seconds |
| RateLimiting.ZeroRateFails | src/http_client.py:263 | at zero requests per minute every call raises ZeroDivisionError |
| RateLimiting.RunInBounds | src/http_client.py:248-268 | any number of calls to `acquire` at a positive rate keeps the bucket within 0..rpm, gives one admission per call and never raises, and leaves the bucket updated at the last call |
| RateLimiting.Burst | src/http_client.py:243-268 | the first `k <= rpm` calls at one instant on a fresh limiter go straight through, one token each |
| RateLimiting.BurstThenWait | src/http_client.py:262-266 | the call after `rpm` such calls waits 60/rpm seconds and empties the bucket |
| HttpClient.SplitQuery | src/http_client.py:68-72 | a URL cut at its first `?` into path and query |
| HttpClient.BuildUrl | src/http_client.py:68-72 | the URL starts with `base/endpoint`; it is exactly that iff there are no parameters, and otherwise continues with `?` and the encoded query |
| HttpClient.BuildUrlSplits | src/http_client.py:68-72 | the URL is `base/endpoint` followed by `?` and the encoded query iff there are parameters |
| HttpClient.ConfiguredUrlsSplit | src/config.py:14 | the configured base URL and every available endpoint name have no `?` |
| HttpClient.Outcome | src/http_client.py:108-109 | an attempt succeeds iff a 2xx response arrived; otherwise it raises that attempt's exception |
| HttpClient.BackoffFrom | src/http_client.py:121 | the wait after failed attempt j is `retry_delay * 2 ** j` |
| HttpClient.RetryFromStep | src/http_client.py:114-123 | a failed attempt that is not the last is followed by its wait and the rest of the loop |
| HttpClient.Retry | src/http_client.py:102-128 | with `n <= 0` no attempt and `raise None`; otherwise 1..n attempts, every one but the last failing, with the backoff waits between them; a 2xx response on the last is returned, and otherwise all n failed and the last exception is raised |
| HttpClient.RetryLoop | src/http_client.py:102-128 | the loop returns, raises, waits and attempts exactly as `Retry` says |
| HttpClient.RetryFromFirstSuccess | src/http_client.py:104-112 | the first successful attempt ends the loop with its response |
| HttpClient.RetryFromAllFail | src/http_client.py:114-128 | if every remaining attempt fails, the last one's exception is raised |
| HttpClient.RetryReturnsFirstSuccess | src/http_client.py:104-112 | the first success among `n` attempts is returned after i waits and i + 1 attempts; no attempt follows it |
| HttpClient.RetryExhausted | src/http_client.py:120-128 | `n` failures raise the last exception after `n - 1` waits; none after the last attempt |
| HttpClient.RetryNoAttempts | src/http_client.py:102-128 | with `max_retries <= 0` nothing is attempted and `raise None` fails |
| HttpClient.RetryBounded | src/http_client.py:104-125 | the loop from attempt k makes 1..n-k attempts with the backoff waits between them; every attempt but the last fails; it returns the last one's response iff that did not fail, and otherwise runs to attempt n and raises its exception |
| HttpClient.BackoffTotal | src/http_client.py:120-123 | the waits add up to `retry_delay * (2 ** m - 1)` |
| HttpClient.DefaultBackoff | src/http_client.py:120-123 | with the defaults, the worst case makes 3 attempts and sleeps 1 then 2 seconds |
| HttpClient.Prefix | src/http_client.py:177 | `s[:n]` is the first min(n, len s) characters |
| HttpClient.MapFailure | src/http_client.py:173-186 | an HTTP status failure becomes an API error with the status and the body's first 200 characters; a transport failure becomes a connection error |
| HttpClient.Dispatch | src/http_client.py:156-171 | JSON data comes only from format `json` and a parsable body; text only from `csv`, unchanged; a failure is an unparsable `json` body or an unsupported format |
| HttpClient.Finish | src/http_client.py:151-186 | a response is dispatched by format; an exception from the request is never a success: an HTTP failure is mapped to an API or connection error, and the TypeError of `raise None` and the limiter's ZeroDivisionError, which `fetch_data` does not catch, stay distinct errors |
| HttpClient.MakeRequestSpec | src/http_client.py:96-128 | when `acquire` raised, no attempt is made; otherwise 1 to max_retries attempts with the backoff waits, and the outcome is a response or an HTTP exception |
| HttpClient.Client.constructor | src/http_client.py:22-25 | a new client has no session and a full limiter at the configured rate |
| HttpClient.Client.MakeRequest | src/http_client.py:96-128 | starts the session; the limiter moves by exactly one `acquire`, before the first attempt and however many follow; the result is the retry loop's, or ZeroDivisionError with no attempt |
| HttpClient.Client.FetchData | src/http_client.py:145-186 | starts the session and requests the URL built from the request's query parameters, and returns the dispatched body or the mapped error |
| HttpClient.DispatchByFormat | src/http_client.py:156-171 | `json` returns the parsed body or fails as invalid JSON; `csv` returns the text unchanged; any other format is not supported |
| HttpClient.ValidatedFormatServed | src/http_client.py:156-171 | a validated request's format is always served; it can fail only as invalid JSON |
| HttpClient.ApiErrorBodyPrefix | src/http_client.py:173-178 | the API error carries the status and at most the first 200 characters of the body, all of it when shorter |
| HttpClient.TimeoutReportedAsConnectionError | src/http_client.py:180-186 | a timeout is reported as a connection error, and only transport failures are |
| HttpClient.FirstAttemptServes | src/http_client.py:153-160 | when the first attempt gets a 2xx response, the fetch makes one attempt, waits for nothing and dispatches that response |

## Left out

- Loading `Settings` from the environment and `.env` (src/config.py:72-75). The model uses the defaults as constants.
- Pydantic's lax coercion into `int` and `float` fields: numeric text read as an int or a float, an integral float read as an int, and a bool read as an int or a float. The model rejects these inputs. The only coercion modelled is widening an int to a float. A `str` field rejects an int in lax mode too, and the model does the same.
- Pydantic reports every failing field together. The model reports only the first, in field order. Which inputs succeed is the same.
- Exact error-message text. Errors are a datatype that names the field and the offending value.
- `str.lower()` beyond ASCII letters; `int()` of underscores and non-ASCII digits.
- NaN and infinite floats, which have no Dafny `real`. For the same reason the OverflowError of `int(inf)` is left out.
- Filter values that are lists or dicts. Filter values are scalars.
- An explicit `filters=None` is stored as the empty dict. Every later use treats the two alike.
- The keyword-argument dict is a `map`. Pydantic validates fields in declaration order, so the order of the arguments decides nothing.
- `str()` of a float, `urlencode`, `response.json()` and `datetime.now()` are parameters.
- `asyncio.Lock` and `asyncio.sleep`. `Acquire` returns the wait instead of sleeping, and calls are sequential.
- IEEE rounding. Token counts, times and waits are exact reals.
- The retry loop returns its waits instead of sleeping them.
- `raise_for_status()` is taken to raise for every status outside 200..299.
- `start`/`close`, the httpx session's settings, `get_client`/`close_client`, `get_available_endpoints` and `health_check`. They are I/O or configuration of the HTTP library.
- `src/alepe_tools.py`, `src/main.py` and the entry points. They are the MCP protocol facade.
- Logging.
- The HTTP method and extra keyword arguments of `_make_request`. `fetch_data` only issues a GET.

# Dataverse customer and invoice access layer, in Dafny

This project models the data-access core of a small Azure Functions service. The service reads
customers and invoices from Microsoft Dataverse through its OData Web API. The model covers:

- **URL building** (`DataverseUrlBuilder`, `DataverseConstants`). There are three query URLs:
  `{base}/api/data/v9.2/{entity set}?$select=...&$filter=statecode eq 0`, and the invoice query
  with ` and _cr720_customer_value eq {guid}` added. They use the `$select` and `$filter` options
  of OData 4.0 Part 2 (URL Conventions), sections 5.1.3 and 5.1.1.
  - A GUID is 16 bytes, printed in the lowercase 8-4-4-4-12 form of RFC 4122, section 3 (`Guids`).
- **The request executor** (`ServiceBase.DataverseServiceBase.ExecuteRequest`). It is an
  imperative method over classes for the token source, the client factory, the HTTP client and
  the network (`Auth`, `Http`).
  - Each call gets one token, creates one client, sets the Bearer token and the `Prefer` header,
    and sends one GET.
  - The outcome is classified against the pure function `ServiceBase.Classify`. The 2xx test is
    the Successful class of RFC 9110, section 15.3.
- **The response pipeline** (`ServiceBase`). `ParseResponse` maps every element of the OData
  collection envelope `{"value": [...]}` with the entity mapper, all or nothing (OData JSON
  Format 4.0, section 12). `GetStringValue` and `GetGuidValue` are the two lenient field
  accessors beside it.
- **The entity services** (`InvoiceService`, `CustomerService`): the fetch methods and the
  invoice and customer mappers.
- **The legacy customer function** (`GetCustomersFunction`). It repeats the pipeline inline,
  with its own messages, reads the environment URL from configuration, and sends no `Prefer` header.
- **The options record** (`Options`): the defaults, the token endpoint and the `scope` of the
  OAuth 2.0 client-credentials grant (RFC 6749, section 4.4.2).

How things are represented:

- Every exception is a constructor of `Exceptions.Exception`. `DataverseApiException` carries its
  message and its inner exception. An operation that can throw returns `Result<T, Exception>`.
  An exception the code does not catch comes back unchanged.
- JSON is a datatype (`Json.Json`). A number holds what `GetInt32` and `GetDecimal` make of it.
  A decimal is exact: `Decimal(unscaled, scale)`.
- Some library calls have no visible body: `JsonDocument.Parse`, `Guid.Parse`/`TryParse`,
  `JsonElement.ToString` on arrays and objects, and the text of an `HttpStatusCode`. These are
  fields of `Runtime.Platform`, passed in. Every property holds for every choice of them. One
  exception: where a lemma requires `AcceptsCanonicalGuids`, it assumes that `Guid.Parse` reads
  back the text `Guid.ToString` writes.
- The answers of the network and of the token source are functions of the request number. A
  class records what was sent and counts the calls. Nothing performs I/O.

Behaviour of the code worth noting:

- Only an `HttpRequestException` from the GET becomes the network error. A timeout
  (`TaskCanceledException`) propagates unwrapped (`ServiceBase.Classify`).
- Field access is not lenient everywhere. On the customer side all four fields are strict:
  a missing one, or one of the wrong kind, rejects the element (`CustomerService.MapCustomer`).
  On the invoice side the id and the amount are strict.
- An invoice element without an id makes the invoice mapper throw `KeyNotFoundException`, and
  the whole response fails; a missing id is never defaulted (`InvoiceService.MissingIdRejects`).
  A numeric invoice number is read as its decimal text (`InvoiceService.NumericInvoiceNumberExample`).
- A root without `value` fails as a mapping failure ("Failed to process ... data") whose inner
  exception is the `KeyNotFoundException`. It is not an invalid-JSON failure.
- The lenient accessors still throw on an element that is not a JSON object, because
  `TryGetProperty` does.
- The invoice entity set and field names are not defined in `Constants/DataverseConstants.cs`.
  Their values come from the tests (`VehicleDemo.Tests/DataverseUrlBuilderTests.cs:31, 115-122`,
  `VehicleDemo.Tests/GetInvoicesTests.cs:60`).

## Model

| member | source | states |
|---|---|---|
| DataverseUrlBuilder.Join | Services/DataverseUrlBuilder.cs:9-13 | `string.Join`: no parts give ""; otherwise the length is the parts' total length plus one separator between each neighbouring pair, and the text starts with the first part. |
| DataverseUrlBuilder.Query | Services/DataverseUrlBuilder.cs:15-17 | The shared interpolation after the base starts with `/api/data/v9.2/` and ends with the filter expression. |
| DataverseUrlBuilder.BuildCustomersUrl | Services/DataverseUrlBuilder.cs:7-18 | The URL is longer than the base and starts with it; the full text is pinned by CustomersUrlExact. |
| DataverseUrlBuilder.BuildInvoicesUrl | Services/DataverseUrlBuilder.cs:20-32 | The URL is longer than the base and starts with it; the full text is pinned by InvoicesUrlExact. |
| DataverseUrlBuilder.BuildInvoicesByCustomerUrl | Services/DataverseUrlBuilder.cs:34-47 | The URL is longer than the base and starts with it; its relation to the unfiltered URL is ByCustomerExtendsInvoices. |
| DataverseUrlBuilder.CustomerSelectPrefixJoined | Services/DataverseUrlBuilder.cs:9-12 | The first three customer columns join in order: id, name, address. |
| DataverseUrlBuilder.CustomerSelectJoined | Services/DataverseUrlBuilder.cs:9-13 | The customer `$select` list joins to the four customer columns, comma-separated, in the order id, name, address, email. |
| DataverseUrlBuilder.InvoiceSelectPrefixJoined | Services/DataverseUrlBuilder.cs:22-27 | The first three invoice columns join in order: id, number, total amount. |
| DataverseUrlBuilder.InvoiceSelectJoined | Services/DataverseUrlBuilder.cs:22-27 | The invoice `$select` list joins to the five invoice columns in the order id, number, total amount, status, customer lookup. |
| DataverseUrlBuilder.CustomersUrlExact | Services/DataverseUrlBuilder.cs:7-18 | The customers URL is exactly the base followed by `/api/data/v9.2/cr720_customers?$select=cr720_customerid,cr720_customername,cr720_address,cr720_email&$filter=statecode eq 0`. |
| DataverseUrlBuilder.InvoicesUrlExact | Services/DataverseUrlBuilder.cs:20-32 | The invoices URL is exactly the base followed by the `cr720_invoices` path, the five columns and the active-records filter. |
| DataverseUrlBuilder.ByCustomerExtendsInvoices | Services/DataverseUrlBuilder.cs:34-47 | The customer-filtered URL is the unfiltered invoices URL followed by ` and _cr720_customer_value eq ` and the GUID text. So the unfiltered URL is a strict prefix of it. |
| DataverseUrlBuilder.ByCustomerDistinguishesCustomers | Services/DataverseUrlBuilder.cs:46 | Two customer-filtered URLs are equal exactly when their customers are equal, and each contains its customer's GUID text. |
| DataverseUrlBuilder.BuildersStartWithBase | Services/DataverseUrlBuilder.cs:15-44 | Every builder starts with the base URL unchanged (not trimmed), followed by `/api/data/v9.2/`. |
| DataverseUrlBuilder.QueryStartsWithPath | Services/DataverseUrlBuilder.cs:15-44 | For every base, a query appended to it starts with that base followed by the version 9.2 Web API path. |
| DataverseUrlBuilder.QueryContainsFilter | Services/DataverseUrlBuilder.cs:15-46 | Every query contains `$filter=` followed by its filter expression. |
| DataverseUrlBuilder.BuildersFilterActiveRecords | Services/DataverseUrlBuilder.cs:17-46 | Every URL filters on `statecode eq 0`. The customer-filtered one joins the customer equality to it with `and`. |
| DataverseUrlBuilder.JoinAvoids | Services/DataverseUrlBuilder.cs:9-27 | A character that is in neither the separator nor any part is not in the joined list. |
| DataverseUrlBuilder.QueryAvoids | Services/DataverseUrlBuilder.cs:15-46 | A character absent from the fixed punctuation, the entity, the fields and the filter is absent from the query. |
| DataverseUrlBuilder.AddsNeither | Services/DataverseUrlBuilder.cs:43-46 | A query text without `x` and `@` holds neither `$expand` nor the formatted-value annotation. |
| DataverseUrlBuilder.FieldsAvoid | Services/DataverseUrlBuilder.cs:9-27 | No column name, entity set or fixed punctuation contains `x` or `@`. |
| DataverseUrlBuilder.FilterAvoids | Services/DataverseUrlBuilder.cs:17-46 | Neither filter expression contains `x` or `@`, whatever the customer GUID. |
| DataverseUrlBuilder.QueriesAvoid | Services/DataverseUrlBuilder.cs:15-46 | None of the three queries contains `x` or `@`. |
| DataverseUrlBuilder.BuildersAddNoExpandNorAnnotation | Services/DataverseUrlBuilder.cs:43-46 | What each builder appends to the base has no `$expand` option and no `@OData.Community.Display.V1.FormattedValue` annotation. |
| Guids.HexDigit | Services/DataverseUrlBuilder.cs:46 | A digit below 16 becomes a lowercase hexadecimal character. |
| Guids.HexValue | Services/DataverseUrlBuilder.cs:46 | A hexadecimal character reads back as a value below 16. |
| Guids.Hex | Services/DataverseUrlBuilder.cs:46 | Bytes print as two lowercase hex digits each. |
| Guids.ParseHex | Services/DataverseUrlBuilder.cs:46 | Reading hex text gives half as many bytes as characters. |
| Guids.GuidText | Services/DataverseUrlBuilder.cs:46 | A GUID prints as 36 characters, with dashes exactly at positions 8, 13, 18 and 23 and lowercase hex everywhere else. |
| Guids.ParseGuidText | Services/DataverseUrlBuilder.cs:46 | Only 36-character text reads as a GUID. |
| Guids.ParseHexOfHex | Services/DataverseUrlBuilder.cs:46 | Reading printed hex gives back the bytes. |
| Guids.GuidTextRoundTrip | Services/DataverseUrlBuilder.cs:46 | Reading a printed GUID gives back the GUID. |
| Guids.GuidTextInjective | Services/DataverseUrlBuilder.cs:46 | Distinct GUIDs print differently. |
| Text.DigitChar | Services/DataverseServiceBase.cs:132 | A digit value becomes a decimal digit character. |
| Text.NatText | Services/DataverseServiceBase.cs:132 | A natural number prints as a non-empty run of decimal digits, with no leading zero. |
| Text.NatTextValue | Services/DataverseServiceBase.cs:132 | The printed digits of a natural number have that number as their value. |
| Text.IntText | Services/DataverseServiceBase.cs:132 | `Int32.ToString`: a leading '-' exactly for a negative value, decimal digits after it, and no leading zero. |
| Text.NegativeTextReads | Services/DataverseServiceBase.cs:132 | A minus sign before the digits of a positive number reads back as the negated number. |
| Text.IntTextRoundTrip | Services/DataverseServiceBase.cs:132 | The text `Int32.ToString` writes reads back as the same integer. |
| Text.IntTextInjective | Services/DataverseServiceBase.cs:132 | Distinct integers have distinct texts. |
| Text.MissingCharExcludes | Services/DataverseUrlBuilder.cs:43-46 | A text without some character of a pattern does not contain the pattern. |
| Text.InfixContained | Services/DataverseUrlBuilder.cs:46 | A text contains every infix placed in it. |
| Text.ContainsAfterPrefix | Services/DataverseUrlBuilder.cs:15-44 | Putting a prefix before a text keeps every pattern the text contains. |
| JsonAccess.GetProperty | Services/InvoiceService.cs:53-55 | The property is found exactly when the element is an object holding the name. Otherwise it throws InvalidOperation (not an object) or KeyNotFound (missing name). |
| JsonAccess.GetString | Services/CustomerService.cs:37-40 | A string gives its content and a null gives null; every other kind throws InvalidOperation. |
| JsonAccess.GetDecimal | Services/InvoiceService.cs:55 | A representable number gives its exact decimal. An unrepresentable number throws FormatException and a non-number throws InvalidOperation. |
| JsonAccess.ParseGuid | Services/InvoiceService.cs:53 | `Guid.Parse` succeeds exactly on accepted text. Null throws ArgumentNull and rejected text throws FormatException. |
| JsonAccess.PropertyGuid | Services/InvoiceService.cs:53 | The id reads exactly when it is present, is a string, and parses as a GUID; the result is that GUID. |
| JsonAccess.PropertyString | Services/CustomerService.cs:38-40 | A present string gives its content and a present null gives null. A missing name throws KeyNotFound; every other kind throws InvalidOperation. |
| Options.Default | Configuration/DataverseOptions.cs:13-37 | The four text settings are empty. Cache duration is 50 minutes (below the 60-minute token lifetime), timeout 30 seconds, 3 retries. |
| Options.GetTokenUrl | Configuration/DataverseOptions.cs:39 | The token endpoint is the login prefix, the tenant id verbatim, then `/oauth2/v2.0/token`. The tenant id can be cut back out of it. |
| Options.GetScopeUrl | Configuration/DataverseOptions.cs:41 | The scope is the environment URL verbatim followed by `/.default`. |
| Options.TokenUrlInjective | Configuration/DataverseOptions.cs:39 | Two options have the same token endpoint exactly when their tenant ids are equal. The tenant read back from the endpoint is the tenant. |
| Options.ScopeUrlInjective | Configuration/DataverseOptions.cs:41 | Two options have the same scope exactly when their environment URLs are equal. |
| Auth.TokenSource.GetToken | Services/IDataverseAuthService.cs:13 | Each call counts once and gives the source's answer for that call. |
| Http.HttpClient.SetBearer | Services/DataverseServiceBase.cs:43-44 | The client's Authorization header becomes `Bearer` with the token. |
| Http.HttpClient.AddDefaultHeader | Services/DataverseServiceBase.cs:47 | The header is appended to the client's default headers. |
| Http.HttpClient.Get | Services/DataverseServiceBase.cs:53 | Exactly one request is sent, with the URL and the current headers. The outcome is the network's answer to it. |
| Http.HttpClientFactory.CreateClient | Services/DataverseServiceBase.cs:41 | Each call returns a new client with no default headers and counts one creation. |
| ServiceBase.DataverseRequest | Services/DataverseServiceBase.cs:43-47 | The executor's request carries the Bearer token and exactly one other header, `Prefer: odata.include-annotations=OData.Community.Display.V1.FormattedValue`. |
| ServiceBase.Classify | Services/DataverseServiceBase.cs:49-77 | The body comes back unchanged exactly on a 2xx response with a readable body. An HttpRequestException becomes the network error with the cause inside, and no status is checked. Any other transport exception passes through. A non-2xx status gives `Dataverse API request failed: {status} - {reason}` with no inner exception. A body-read failure gives `Failed to read API response` with the cause. |
| ServiceBase.DataverseServiceBase.ExecuteRequest | Services/DataverseServiceBase.cs:38-78 | The token is asked for exactly once. If it fails, its exception comes back and no client is created and nothing is sent. Otherwise one client is created and exactly one request goes out, with that token and the Prefer header. The result is the classification of that request's outcome. |
| ServiceBase.ValueItems | Services/DataverseServiceBase.cs:100-102 | The elements are found exactly when the root is an object whose `value` is an array. A root object without `value` throws KeyNotFound("value"). |
| ServiceBase.MapEach | Services/DataverseServiceBase.cs:103-104 | The mapping succeeds exactly when every element maps. It then has the same length, and each position holds its element's mapping. A failure is the exception of the first element that fails. |
| ServiceBase.ParseResponse | Services/DataverseServiceBase.cs:83-117 | An unparsable body gives `Invalid JSON response from Dataverse`. Success happens exactly when the root has a `value` array all of whose elements map. The result is then the mapped elements, in order and with the same count. Every other failure is `Failed to process {entity} data` with no partial list. Its inner exception is the envelope accessor's exception, or else the exception of the first element that fails to map. |
| ServiceBase.EmptyCollectionGivesEmptyList | Services/DataverseServiceBase.cs:100-109 | `{"value": []}` gives the empty list. |
| ServiceBase.MissingValueArrayFails | Services/DataverseServiceBase.cs:98-115 | A root without a `value` array gives `Failed to process {entity} data` around the accessor's exception (KeyNotFound("value") when the name is missing). |
| ServiceBase.ParseFetched | Services/InvoiceService.cs:30-31 | A failed request passes through unchanged; a fetched body is parsed. This is glue between the executor and the parser; the evidence for the fetches is in ExecuteRequest and the fetch methods' proofs. |
| ServiceBase.GetStringValue | Services/DataverseServiceBase.cs:122-136 | A missing property or a null gives "". A string gives its content. An Int32 number gives exactly its `Int32.ToString` text (IntText), which reads back as that number; a number outside Int32 throws FormatException. A boolean gives True/False, and an array or object gives its raw text. A non-object element throws InvalidOperation. |
| ServiceBase.GetGuidValue | Services/DataverseServiceBase.cs:141-155 | On an object it never fails. A string property that parses gives its GUID; anything else gives Guid.Empty. Only a non-object element throws. |
| ServiceBase.GetGuidValueReadsGuidText | Services/DataverseServiceBase.cs:148-151 | A property holding a GUID's canonical text gives back that GUID. |
| ServiceBase.GuidLenientAgreesWithStrict | Services/DataverseServiceBase.cs:141-155 | Where the strict GUID read succeeds, the lenient one gives the same GUID. |
| ServiceBase.StringLenientAgreesWithStrict | Services/DataverseServiceBase.cs:122-136 | Where the strict string read succeeds, the lenient one gives the same text, with null as "". |
| InvoiceService.PropertyDecimal | Services/InvoiceService.cs:55 | The amount reads exactly when it is present and a number with a decimal value; that exact decimal is the result. |
| InvoiceService.MapInvoiceWithCustomerId | Services/InvoiceService.cs:50-60 | The record maps exactly when the id and amount read strictly and the three lenient fields read. Each field is its accessor's value, and the customer id is the argument. A non-object throws InvalidOperation; a missing id throws KeyNotFound. |
| InvoiceService.MapInvoice | Services/InvoiceService.cs:44-48 | Success does not depend on the lookup column. The record is the one above with the customer id read leniently, so an absent, non-string or unparsable lookup gives Guid.Empty. |
| InvoiceService.ByCustomerKeepsCustomerId | Services/InvoiceService.cs:41-57 | In a successful by-customer parse, every invoice's customer id is the one asked for, whatever the payload holds. |
| InvoiceService.NumericInvoiceNumberExample | Services/InvoiceService.cs:53-58 | For the numeric invoice number 1001 the record is exact: `"1001"`, the amount 250.50 exactly, and `""` as the missing display name. |
| InvoiceService.MissingIdRejects | Services/InvoiceService.cs:53 | An element without an id fails the whole response with `Failed to process invoices data` around KeyNotFound. |
| InvoiceService.InvoiceService.GetInvoices | Services/InvoiceService.cs:27-32 | One token is fetched. If it fails, its exception comes back, no client is created and nothing is sent. Otherwise one client is created and one request is sent, to `BuildInvoicesUrl(DataverseUrl)` with the Prefer header. The result is its classified outcome parsed with MapInvoice under `invoices`. |
| InvoiceService.InvoiceService.GetInvoicesByCustomerId | Services/InvoiceService.cs:37-42 | The same token, client and request counts, with `BuildInvoicesByCustomerUrl(DataverseUrl, customerId)` and the by-customer mapper. On success every invoice carries that customer id. |
| CustomerService.MapCustomer | Services/CustomerService.cs:34-42 | The customer maps exactly when the id parses and name, address and email are each present and a string or null. The record holds those values in that order, with null kept as null. A non-object throws InvalidOperation; a missing id throws KeyNotFound. |
| CustomerService.CustomerFieldsAreStrict | Services/CustomerService.cs:38-40 | A number that the lenient string accessor would accept, placed in a customer text field, rejects the customer. |
| CustomerService.CustomersAllOrNothing | Services/DataverseServiceBase.cs:111-115 | One good and one bad customer give no list, only `Failed to process customers data` around the bad one's exception. |
| CustomerService.CustomerService.GetCustomers | Services/CustomerService.cs:27-32 | One token is fetched. If it fails, its exception comes back, no client is created and nothing is sent. Otherwise one client is created and one request is sent, to `BuildCustomersUrl(DataverseUrl)` with the Prefer header. The result is its classified outcome parsed with MapCustomer under `customers`. |
| GetCustomersFunction.LegacyRequest | GetCustomers.cs:71-72 | The legacy request carries only the Bearer token: its headers are empty, unlike the executor's. |
| GetCustomersFunction.LegacyClassify | GetCustomers.cs:77-104 | It succeeds on exactly the outcomes, and with exactly the body, that the service classification does. An HttpRequestException gives `Network error occurred while fetching customers` with the cause. A non-2xx status gives `Failed to fetch customers: {status} - {reason}`. A read failure gives `Failed to read API response` with the cause. |
| GetCustomersFunction.LegacyParse | GetCustomers.cs:106-140 | Unparsable text gives `Invalid response format from Dataverse`. Otherwise it gives the same customers as the service parser. A failure is `Failed to process customer data` around the same cause. |
| GetCustomersFunction.LegacyPipeline | GetCustomers.cs:77-140 | A failed classification passes through; a body is parsed by the legacy parser. This is glue; the evidence is in LegacyAgreesWithService and the proof of GetCustomersAsync. |
| GetCustomersFunction.LegacyAgreesWithService | GetCustomers.cs:66-141 | On every outcome the legacy path and the customer service return the same customers, or both fail. |
| GetCustomersFunction.GetCustomers.BaseUrl | GetCustomers.cs:74-75 | The configured `DATAVERSE_URL`, or "" when the key is missing (a null setting interpolates as ""). |
| GetCustomersFunction.GetCustomers.GetCustomersAsync | GetCustomers.cs:66-141 | One token and one client per call. If the token fails, nothing is sent. Otherwise exactly one request goes to `BuildCustomersUrl(config["DATAVERSE_URL"])`, with the Bearer token and no other header, and the result is the legacy pipeline on its outcome. |

## Left out

- The Azure Functions handlers (`Run`), `Helpers/HttpResponseHelper.cs` and the mapping of exceptions to 502/500/400 responses: they are hosting glue.
- The GUID pre-check in `GetInvoicesByCustomer.cs`: it rests on the multi-format `Guid.TryParse` and belongs to the handler.
- The token request in `Services/DataverseAuthService.cs`: the token source is abstract, a token or an exception per call.
- A token cache, its expiry and `ClearTokenCache`: no implementation is part of this model. Concurrency is out of scope too.
- `Program.cs` (dependency injection, settings fallback through `int.TryParse`), the OpenAPI options and `ErrorResponse`.
- The internals of `JsonDocument.Parse`, `Guid.Parse`/`TryParse`, `GetInt32`, `GetDecimal`, `JsonElement.ToString` and the text of `HttpStatusCode`. They are parameters, not definitions.
- Logging and asynchronous scheduling: every `await` is one sequential step.
- ServiceBase.DataverseServiceBase.ExecuteRequest: does not model the exception that reading an error body can throw before the status failure is raised. A non-2xx response always gives the status failure.
- ServiceBase.ParseResponse: the disposal of the parsed document is not modelled.
- Options.DataverseOptions: `MaxRetryAttempts` and `RequestTimeoutSeconds` are carried but used by nothing in the core. The `[Required]` validation attributes are not modelled.
- Text.IntText: assumes the invariant culture; `Int32.ToString()` uses the current culture's negative sign, which is not modelled.
- ServiceBase.Classify: an undefined reason phrase (null) is written as the empty string.
- Duplicate JSON property names: not represented, since an object is a map from names to values.

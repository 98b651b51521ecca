# e-Fatura MCP server core, modelled in Dafny

The e-Fatura MCP server lets a tool-calling assistant work with Turkey's GİB
e-Arşiv invoicing portal. Three pieces of it are modelled here.

- **The portal client** (`GIBEarsivClient`) logs in, keeps the session token
  and sends the portal's invoice commands: list, view, find, create a draft,
  sign, cancel. It also builds download links.
- **The demo backend** (`MockGIBEarsivClient` and its five fixture invoices)
  answers the same calls from constant data.
- **The facade** (`EFaturaClient`) chooses between the two from the
  configured credentials. It turns native portal records into `Invoice`
  values, filters them for searches, creates and signs drafts, classifies tax
  numbers and assembles the invoice preview text.

The model has seven modules, one per file:

- `Wire` (`wire.dfy`): decoded JSON values with Python truthiness,
  `dict.get`, requests, transport exchanges, and the exceptions a call can
  raise, as a `Result`.
- `Text` (`text.dfy`): the Python string built-ins the code relies on:
  `isdigit`, `strip`, substring `in`, slicing `s[:n]`, and `float` on
  decimal text.
- `Dates` (`dates.dfy`): `strptime("%Y-%m-%d")` with Python's accepted
  forms and calendar checks, and the `strftime` outputs.
- `GibEarsiv` (`gib_earsiv.dfy`): the portal client as a class. Its fields
  are `token` and `sent`, the log of every request sent. The portal behind it
  is the field `serve`, which gives a reply or a failure for each request,
  given all requests sent before it. Each client method is tied to an outcome
  function, and the properties are proved about those functions.
  `find_invoice`'s loop is a method with its invariant.
- `MockData` (`mock_data.dfy`): the fixture and the demo client, as pure
  functions over a constant sequence.
- `EFatura` (`efatura.dfy`): the facade as a class over a `Backend` (portal
  or demo). It has:
  - the credential predicate;
  - record normalisation, as a loop method and its specification function;
  - the search filter chain, proved equal to a one-pass conjunctive
    selection;
  - the draft payload and the create-then-sign rule;
  - tax-number validation and the preview text.
- `Substitution` (`substitution.dfy`): where the demo client can stand in
  for the portal client, and where it cannot.

Clock readings, `uuid4()` values and `str.lower` are parameters. So is the
`str(...)` rendering of a float.

## Model

| member | source | states |
|---|---|---|
| Text.StripEmptyIffBlank | src/efatura_mcp/server.py:96-97 | `s.strip() == ""` holds exactly when every character of `s` is Python whitespace, including the empty string |
| Text.Prefix | src/efatura_mcp/gib_earsiv_client.py:180 | `s[:n]` is a prefix of `s`; its length is `min(n, len(s))` for `n >= 0`, and for negative `n` it drops `-n` elements from the end |
| Text.ParseFloat | src/efatura_mcp/server.py:175 | `float(text)` succeeds only on text that is not blank after stripping; an unsigned parse is never negative |
| Text.ParseFloatStrips | src/efatura_mcp/server.py:175 | `float` gives the same result on text and on its `strip()` |
| Text.ParseFloatDigits | src/efatura_mcp/server.py:175 | a run of digits parses to the number it writes, bare or after `+`, and to its negation after `-` |
| Text.ParseFloatDecimal | src/efatura_mcp/server.py:175 | `a.b` with digit runs `a` and `b`, not both empty, parses to `a + b / 10^len(b)`, bare or after `+`, and to its negation after `-` |
| Dates.ParseIsoDate | src/efatura_mcp/gib_earsiv_client.py:159-160 | a date `strptime` accepts is a real calendar date: year 1-9999, month 1-12, a day within that month (leap years included) |
| Dates.ReformatDate | src/efatura_mcp/gib_earsiv_client.py:159-169 | the `DD/MM/YYYY` rewrite exists exactly when `strptime` accepts the input |
| Dates.ReformatCanonical | src/efatura_mcp/gib_earsiv_client.py:168-169 | for a valid `YYYY-MM-DD` text the portal form is the same day, month and year rearranged to `DD/MM/YYYY` |
| Dates.ParseFormatRoundTrip | src/efatura_mcp/gib_earsiv_client.py:159-160 | `strptime` reads back every date that `strftime("%Y-%m-%d")` writes |
| Dates.CanonicalIsFormatted | src/efatura_mcp/gib_earsiv_client.py:159-160 | every valid canonical date text is exactly what `strftime` writes for its date |
| GibEarsiv.BaseUrlFor | src/efatura_mcp/gib_earsiv_client.py:25-28 | the production host exactly for `"production"`; every other environment falls back to the test host |
| GibEarsiv.LoginOutcome | src/efatura_mcp/gib_earsiv_client.py:119-132 | login succeeds exactly when the reply has a truthy `userid`; the new token is the reply's `token`; a failure raises with the reply's `error`, or "Unknown authentication error" when it has none; a transport failure raises |
| GibEarsiv.Authorize | src/efatura_mcp/gib_earsiv_client.py:134-137 | a held token is kept without logging in; without one, the result is exactly the login outcome, so it raises exactly when that login fails and otherwise holds the token login returned |
| GibEarsiv.SliceData | src/efatura_mcp/gib_earsiv_client.py:177-180 | a list is cut to exactly `data[:limit]`; a string gives, in order, one one-character string per character of its `[:limit]` slice; any other kind yields nothing |
| GibEarsiv.InvoicesFrom | src/efatura_mcp/gib_earsiv_client.py:174-187 | a transport failure, or a missing or falsy `data`, gives `[]`; truthy `data` gives `SliceData` of it, so list data gives exactly `data[:limit]`; never more than `limit` records |
| GibEarsiv.DataOf | src/efatura_mcp/gib_earsiv_client.py:214-216 | returns the reply's `data` exactly when the reply carries a truthy `data` field |
| GibEarsiv.ListCall | src/efatura_mcp/gib_earsiv_client.py:159-172 | the listing command exists exactly when both dates parse; its `jp.baslangic` and `jp.bitis` are their `DD/MM/YYYY` rewrites |
| GibEarsiv.FetchInvoices | src/efatura_mcp/gib_earsiv_client.py:156-187 | `get_invoices` raises exactly on a login failure or a malformed date, with that failure; otherwise it returns the reply's records, never more than `limit` |
| GibEarsiv.FirstMatchSpec | src/efatura_mcp/gib_earsiv_client.py:258-264 | `find_invoice`'s scan returns the first record, in fetched order, matching the UUID or the number, or none when no record matches; it raises only on an element that is not an object; with neither key given it returns none |
| GibEarsiv.ScanInvoices | src/efatura_mcp/gib_earsiv_client.py:258-264 | the `for` loop with early return computes exactly the scan specified by `FirstMatch` |
| GibEarsiv.FindOutcome | src/efatura_mcp/gib_earsiv_client.py:252-264 | a raising listing propagates; otherwise the result is the scan over the listed records |
| GibEarsiv.ViewOutcome | src/efatura_mcp/gib_earsiv_client.py:198-220 | raises exactly when `ensure_token` raises; otherwise returns the reply's truthy `data` or none |
| GibEarsiv.CreateOutcome | src/efatura_mcp/gib_earsiv_client.py:276-297 | raises exactly when `ensure_token` raises; otherwise returns the new draft's id (truthy `data`) or none |
| GibEarsiv.SignOutcome | src/efatura_mcp/gib_earsiv_client.py:309-331 | raises exactly when `ensure_token` raises; otherwise true exactly when the reply carries truthy `data` |
| GibEarsiv.CancelOutcome | src/efatura_mcp/gib_earsiv_client.py:343-367 | raises exactly when `ensure_token` raises; otherwise true exactly when the reply carries truthy `data` |
| GibEarsiv.DownloadUrl | src/efatura_mcp/gib_earsiv_client.py:233-235 | the link starts with the base URL, the download path and the token, and ends with `&ettn=`, the UUID and the fixed suffix; its length is exactly the sum of those parts, so nothing lies between them |
| GibEarsiv.DownloadUrlInjective | src/efatura_mcp/gib_earsiv_client.py:233 | under one base URL and token, distinct UUIDs give distinct links |
| GibEarsiv.GibEarsivClient.constructor | src/efatura_mcp/gib_earsiv_client.py:41-54 | the base URL comes from the environment, no token is held and nothing has been sent |
| GibEarsiv.GibEarsivClient.GetToken | src/efatura_mcp/gib_earsiv_client.py:95-132 | sends exactly the login request; the result is the login outcome; only a successful login replaces the token |
| GibEarsiv.GibEarsivClient.EnsureToken | src/efatura_mcp/gib_earsiv_client.py:134-137 | logs in only when no token is held; with a token held, neither the token nor the request log changes |
| GibEarsiv.GibEarsivClient.GetInvoices | src/efatura_mcp/gib_earsiv_client.py:139-187 | returns the listing outcome; the new token and request log are the login request (if one is needed) and then the listing command (if login succeeded and both dates parse) |
| GibEarsiv.GibEarsivClient.GetInvoiceHtml | src/efatura_mcp/gib_earsiv_client.py:189-220 | returns the view outcome; sends the login if needed, then the view command |
| GibEarsiv.GibEarsivClient.GetInvoiceDownloadUrl | src/efatura_mcp/gib_earsiv_client.py:222-235 | reads only the held token and sends nothing; the link is `DownloadUrl` of the base URL and that token |
| GibEarsiv.GibEarsivClient.FindInvoice | src/efatura_mcp/gib_earsiv_client.py:237-264 | lists up to 1000 records of the one given day, then scans them; the log gains only the listing's requests |
| GibEarsiv.GibEarsivClient.CreateDraftInvoice | src/efatura_mcp/gib_earsiv_client.py:266-297 | returns the create outcome; sends the login if needed, then the create command carrying the draft as `jp` |
| GibEarsiv.GibEarsivClient.SignDraftInvoice | src/efatura_mcp/gib_earsiv_client.py:299-331 | returns the sign outcome; the sign command's `jp.imzalanacaklar` is exactly `[invoice_uuid]` |
| GibEarsiv.GibEarsivClient.CancelDraftInvoice | src/efatura_mcp/gib_earsiv_client.py:333-367 | returns the cancel outcome; the command lists exactly `[invoice_uuid]` and carries the reason |
| MockData.AsRecord | src/efatura_mcp/mock_data.py:11-20 | a fixture invoice is a dictionary whose `ettn` and `belgeNumarasi` are its own |
| MockData.MockRecords | src/efatura_mcp/mock_data.py:10-61 | the fixture records, one per invoice, in order |
| MockData.DemoClient | src/efatura_mcp/mock_data.py:78-81 | the demo client keeps the environment it was given |
| MockData.GetToken | src/efatura_mcp/mock_data.py:82-86 | always the constant `mock_token_12345`, which the portal client would count as held |
| MockData.EnsureToken | src/efatura_mcp/mock_data.py:88-90 | changes nothing |
| MockData.GetInvoices | src/efatura_mcp/mock_data.py:92-110 | a prefix of the fixture whatever the dates; for `limit >= 0` its length is `min(limit, 5)` |
| MockData.FirstIndex | src/efatura_mcp/mock_data.py:123 | the position of the first invoice whose field equals the value; none before it does |
| MockData.FirstWith | src/efatura_mcp/mock_data.py:194 | `next(...)` finds an invoice exactly when one has that field value, and the one it finds is in the fixture and has it |
| MockData.GetInvoiceHtml | src/efatura_mcp/mock_data.py:112-160 | no page exactly when no fixture invoice has that `ettn`; a page, when present, is non-empty |
| MockData.GetInvoiceDownloadUrl | src/efatura_mcp/mock_data.py:162-173 | the portal's link shape, on the test host exactly for `"test"`, with the literal token `mock_token` |
| MockData.FindInvoice | src/efatura_mcp/mock_data.py:175-200 | with a UUID given, searches by UUID over the whole fixture and ignores the number; otherwise searches by number; with neither, returns none |
| MockData.CreateDraftInvoice | src/efatura_mcp/mock_data.py:202-218 | the fresh id and nothing else |
| MockData.SignDraftInvoice | src/efatura_mcp/mock_data.py:220-230 | always true |
| MockData.CancelDraftInvoice | src/efatura_mcp/mock_data.py:232-243 | always true |
| MockData.FixtureFacts | src/efatura_mcp/mock_data.py:10-61 | five invoices with pairwise distinct UUIDs and pairwise distinct numbers, all in TRY, none with an empty UUID |
| MockData.FindFixtureUuid | src/efatura_mcp/mock_data.py:193-194 | looking up a fixture UUID yields that very record, whatever number is also given |
| MockData.CreatedDraftNotFound | src/efatura_mcp/mock_data.py:212-218 | a created id outside the fixture is never found and has no page, because nothing is stored |
| EFatura.DemoSelectedIff | src/efatura_mcp/server.py:94-101 | the demo backend is chosen exactly when a credential is empty or whitespace-only, or equals its placeholder |
| EFatura.ValidateTaxNumber | src/efatura_mcp/server.py:394-427 | non-digit text, including the empty string, is `invalid_format`; for digits, 10 is `valid_vkn_format`, 11 is `valid_tckn_format`, anything else is `invalid_length`; the input is echoed, there is no company name, and `is_valid` holds exactly for the two valid statuses |
| EFatura.AmountField | src/efatura_mcp/server.py:175 | a missing `toplamTutar` counts as 0 |
| EFatura.NormalizeRecord | src/efatura_mcp/server.py:169-178 | a record converts exactly when it is an object whose text fields are strings or missing and whose amount converts; each field is the record's value or its default (`""`, `"Supplier"`, `"Customer"`, 0, `"TRY"`, `"unknown"`) |
| EFatura.NormalizeAll | src/efatura_mcp/server.py:166-181 | one `Invoice` per record, same order and length; it fails exactly when some record fails |
| EFatura.NormalizeRecords | src/efatura_mcp/server.py:166-181 | the `for`/`append` loop computes exactly `NormalizeAll` |
| EFatura.Listed | src/efatura_mcp/server.py:161-185 | every exception, from the backend or from a record, gives `[]`; otherwise the normalised list |
| EFatura.DetailFrom | src/efatura_mcp/server.py:207-230 | a failed or falsy lookup gives none; otherwise the record is normalised with the asked id as the default `ettn` |
| EFatura.SearchIsSelect | src/efatura_mcp/server.py:367-377 | the chain of five comprehensions keeps exactly what the one-pass conjunctive selection keeps |
| EFatura.SelectSubsequence | src/efatura_mcp/server.py:367-379 | the selection is an order-preserving subsequence of its input |
| EFatura.SelectMembers | src/efatura_mcp/server.py:367-379 | an invoice is selected exactly when it is in the input and meets every active filter |
| EFatura.SearchSpec | src/efatura_mcp/server.py:365-379 | the search keeps, in order, exactly the listed invoices that meet every active filter: case-folded substring on customer and supplier, inclusive bounds, exact status |
| EFatura.EmptyTextFiltersInactive | src/efatura_mcp/server.py:368-377 | an empty customer name, supplier name or status filter each gives the same result as that filter being absent, whatever the other filters; with all three empty and no amount bounds the list comes back unchanged |
| EFatura.ZeroMinimumApplies | src/efatura_mcp/server.py:372-373 | a minimum of 0 is still applied and drops a negative total |
| EFatura.CopiedFields | src/efatura_mcp/server.py:247-298 | the draft's request-dependent fields: number, date, clock time, currency, customer tax number and name, the item table with each item copied in order, and the total rendered in all four amount fields |
| EFatura.DraftPayloadFields | src/efatura_mcp/server.py:247-298 | every draft field is either copied or fixed; the copied values are the request's and the fixed ones keep their constants |
| EFatura.DraftIgnoresSupplier | src/efatura_mcp/server.py:247-298 | the supplier's tax number and name never reach the draft |
| EFatura.CreateThenSign | src/efatura_mcp/server.py:300-318 | a failed create raises; a missing or falsy id raises "no UUID"; a created id is returned whether signing answers true or false; an exception while signing propagates as that same exception |
| EFatura.CreateOnPortal | src/efatura_mcp/server.py:300-318 | against the portal: the result and session after create then sign; the last request sent for a returned id signs exactly that id |
| EFatura.CreateOnDemo | src/efatura_mcp/server.py:300-315 | against the demo client: the fresh id, refused only when empty |
| EFatura.Preview | src/efatura_mcp/server.py:461 | `html[:500]` on text is exactly its first 500 characters (a prefix of at most 500), and text of at most 500 characters comes back whole |
| EFatura.XmlText | src/efatura_mcp/server.py:460-467 | with a truthy view: preview, then the link; with none or a falsy one: the link alone, or none when the link is empty; a result always ends with the link |
| EFatura.XmlFrom | src/efatura_mcp/server.py:453-470 | a raising view gives none; otherwise the text above |
| EFatura.DemoView | src/efatura_mcp/server.py:460 | a non-empty demo page is the view itself, as text; no page or an empty one is no view |
| EFatura.NormalizeAllConverts | src/efatura_mcp/server.py:166-181 | when every record converts, the list normalises to exactly those conversions, in order |
| EFatura.NormalizeFixture | src/efatura_mcp/server.py:169-178 | a fixture record whose amount text parses normalises to its own UUID, number, date, parties, currency and status, with that amount |
| EFatura.FixtureAmount | src/efatura_mcp/mock_data.py:17-57 | the five fixture amounts parse to 15000.0, 8500.5, 22000.0, 45000.0 and 12500.75 |
| EFatura.DemoListing | src/efatura_mcp/server.py:161-181 | on the demo backend, `list_invoices(limit=10)` gives the five fixture invoices in order, each with its UUID, number and amount, all in TRY |
| EFatura.EFaturaClient.constructor | src/efatura_mcp/server.py:80-119 | a fresh portal client with that environment's base URL exactly when real credentials are set, otherwise the demo client for that environment |
| EFatura.EFaturaClient.ListInvoices | src/efatura_mcp/server.py:134-185 | a missing start is 2024-01-01 and a missing end is today; the result is `Listed` of the backend's listing then; the session changes only by that listing |
| EFatura.EFaturaClient.GetInvoiceDetail | src/efatura_mcp/server.py:187-230 | `find_invoice` by UUID on the one day a year back, then `DetailFrom` |
| EFatura.EFaturaClient.CreateInvoice | src/efatura_mcp/server.py:232-318 | the draft payload built from the request, then create-then-sign on the chosen backend |
| EFatura.EFaturaClient.CancelInvoice | src/efatura_mcp/server.py:320-341 | the demo client always cancels; on the portal, true exactly when the cancel outcome is true, and false when it raises |
| EFatura.EFaturaClient.SearchInvoices | src/efatura_mcp/server.py:343-379 | the filter chain applied to `list_invoices(limit=100)` over 2024-01-01 to today |
| EFatura.EFaturaClient.GetInvoiceXml | src/efatura_mcp/server.py:437-470 | views the invoice, then builds the link from the token held afterwards; the result is `XmlFrom` of the two |
| Substitution.ScanAgrees | src/efatura_mcp/gib_earsiv_client.py:258-262 | with a single key, the portal client's scan over fixture-shaped records finds the demo client's first match |
| Substitution.ListingAgrees | src/efatura_mcp/mock_data.py:110 | against a portal serving the fixture, listing valid dates gives the demo client's `MOCK_INVOICES[:limit]` |
| Substitution.ListingDiffersOnBadDate | src/efatura_mcp/gib_earsiv_client.py:159 | given a malformed date, the portal client raises while the demo client still lists the fixture |
| Substitution.FindAgrees | src/efatura_mcp/mock_data.py:192-200 | with exactly one key and a valid day, the portal client's `find_invoice` against the fixture portal equals the demo client's |
| Substitution.FindDiffersWithBothKeys | src/efatura_mcp/gib_earsiv_client.py:258-262 | given the third invoice's UUID and the first invoice's number, the portal client returns the first invoice and the demo client the third |
| Substitution.HostsAgree | src/efatura_mcp/mock_data.py:162-173 | for `"test"` and `"production"`, the portal client's link for its host and the token `mock_token` is exactly the demo client's link |
| Substitution.DownloadLinksDiffer | src/efatura_mcp/mock_data.py:172 | for any other environment the two clients' links differ: the portal client uses the test host, the demo client the production host |
| Substitution.SignDiffersOnEmptyReply | src/efatura_mcp/mock_data.py:220-243 | the demo client signs and cancels unconditionally, while the portal client answers false to an empty reply |

## Left out

- Transport: `_make_request`, the HTTP session, its headers and form encoding are not modelled. The portal is the function `serve` from the requests sent so far and the new request to a failure or a decoded JSON object. A reply that is not a JSON object counts as a failure, because every caller treats any exception from the request alike.
- JSON payloads: nested `jp` objects are model values, not serialised text.
- Nondeterminism: `uuid.uuid4()` correlation ids and demo ids, `datetime.now()`, `date.today()` and the `HH:MM:SS` clock reading are caller-supplied parameters.
- Not modelled at all: logging, the MCP server wiring (`Server`, `list_tools`, `call_tool`, `main`), the async stdio server, settings and `.env` loading, and the `__main__` smoke test.
- Concurrency: two callers racing on the lazily acquired token are not modelled.
- Floating point: amounts are `real`. `float(...)` accepts only decimal text with an optional sign and surrounding whitespace. Exponents, `_` separators, `inf` and `nan` are not accepted. The rendering `str(total_amount)` is the parameter `repr`.
- Unicode: `str.isdigit` is modelled for ASCII digits only, and `strptime` digits are ASCII. `str.lower` is the parameter `lower`.
- Dates: `strptime` has Python's accepted widths (one or two digit month and day, and a space before a single-digit day), but a four-digit year only. Years below 1000 are written zero-padded by `strftime`.
- Login token: a login reply whose `token` is neither a string nor missing or null is treated as no token.
- EFatura.XmlText: a truthy non-string view, such as a list, gives none, where Python would render the list's text into the preview.
- EFatura.EFaturaClient.constructor: it cannot fail, so `_initialize_client`'s fallback to the demo client after a failing `GIBEarsivClient(...)` is not modelled. The `not self.api_client` guards are unreachable for the same reason.
- EFatura.ValidateTaxNumber: the `except` branch that returns status `"error"` is not modelled, because against a string argument nothing in the `try` raises.
- MockData.GetInvoiceHtml: the HTML is a simplified template with the same fields in the same order, not the exact markup.
- `Invoice` validation: pydantic's coercions other than accepting a string for a text field are not modelled. Any other kind counts as a conversion failure.

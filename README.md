# ListaDeputados controller — a Dafny model

This project models the query/fetch controller of the `ListaDeputados` React
component, a paginated directory of federal deputies backed by the Câmara dos
Deputados open-data API. The controller:

- keeps draft filter texts (name, state code, party code) apart from the
  committed query;
- turns the committed query and the current page into request parameters;
- deduplicates the fetched records by `id`;
- resolves the total page count from the response's `"last"` link;
- tracks `loading` across a fetch, keeping the previous results when a fetch fails.

Layout, one module per file:

- `wrappers.dfy` — `Option`.
- `array_search.dfy` — `FindIndex` and `Find`, the JavaScript `findIndex` and `find` the component relies on.
- `deputados.dfy` — the `Deputado` record, `Dedupe` (the `filter`/`findIndex` expression) and its lemmas.
- `decimal.dfy` — the decimal text of a number, as `URLSearchParams` writes numeric values, with its inverse.
- `request.dfy` — filters, request parameters, the imperative `BuildParams` and `Get` (`URLSearchParams.get`).
- `pagination.dfy` — `Link` and `ResolveTotalPages`.
- `lista_deputados.dfy` — the fixed state list, the response payload and the `Controller` class. The class has one field per `useState` of the component, except that the three filter inputs (`filtroNome`, `filtroUf`, `filtroPartido`) form the single field `draft`. It has one method per state transition. Two client methods replay end-to-end scenarios.

## Model

| member | source | states |
|---|---|---|
| ArraySearch.FindIndex | src/components/ListaDeputados.jsx:65-67 | `findIndex`: -1 exactly when no element satisfies the predicate; otherwise the index of an element that satisfies it, with none before it |
| ArraySearch.Find | src/components/ListaDeputados.jsx:71 | `find`: `None` exactly when no element satisfies the predicate; otherwise the first element that does |
| Deputados.FirstIndexOfId | src/components/ListaDeputados.jsx:66 | `self.findIndex(d => d.id === id)` gives the first position holding `id`, or -1 when `id` is absent |
| Deputados.Dedupe | src/components/ListaDeputados.jsx:65-67 | the `filter`/`findIndex` expression itself; its contract is stated by DedupeSpec, DedupeFixedIff and DedupeIdempotent |
| Deputados.KeptFromLength | src/components/ListaDeputados.jsx:65-67 | filtering positions i on keeps at most the number of records from i on |
| Deputados.KeptFromSurvivors | src/components/ListaDeputados.jsx:65-67 | every record kept from position i on is the first record of its id, found at or after i |
| Deputados.KeptFromOrder | src/components/ListaDeputados.jsx:65-67 | the records kept from position i on appear in increasing input position |
| Deputados.PrependInInputOrder | src/components/ListaDeputados.jsx:65-67 | a record placed before records that occur later in the input keeps the input order |
| Deputados.KeptFromComplete | src/components/ListaDeputados.jsx:65-67 | every first occurrence at or after position i is kept |
| Deputados.DedupeSpec | src/components/ListaDeputados.jsx:65-67 | every survivor is the first record of its id in the input; the first record of every input id survives; survivors' ids are distinct; their input order is kept; the output is no longer than the input |
| Deputados.DedupeFixedIff | src/components/ListaDeputados.jsx:65-67 | deduplication returns the list unchanged if and only if its ids are already distinct |
| Deputados.DedupeIdempotent | src/components/ListaDeputados.jsx:65-67 | deduplicating twice equals deduplicating once |
| Deputados.DedupeExample | src/components/ListaDeputados.jsx:65-68 | records with ids 1, 2, 1 deduplicate to the first two records, ids 1 then 2 |
| Decimal.NatToDecimal | src/components/ListaDeputados.jsx:56 | the text of a page number is a non-empty string of digits with no leading zero |
| Decimal.IntToDecimal | src/components/ListaDeputados.jsx:52-56 | the text of a number starts with '-' exactly when the number is negative, and the rest is a non-empty string of digits with no leading zero |
| Decimal.IntRoundTrip | src/components/ListaDeputados.jsx:56 | reading back the decimal text of the page gives the page |
| Decimal.IntToDecimalInjective | src/components/ListaDeputados.jsx:56 | two page numbers have the same text if and only if they are equal |
| Request.BaseParams | src/components/ListaDeputados.jsx:51-57 | the fixed parameters of the `URLSearchParams` constructor; their content is stated by GetBase and RequestParamsShape |
| Request.OptionalParam | src/components/ListaDeputados.jsx:58-60 | one guarded append: empty exactly when the filter text is empty, otherwise the single pair of key and text |
| Request.RequestParams | src/components/ListaDeputados.jsx:51-60 | the full parameter list; its contract is stated by RequestParamsLookup and RequestParamsShape |
| Request.BuildParams | src/components/ListaDeputados.jsx:51-60 | the appends produce exactly the request parameters that the lemmas below describe |
| Request.GetBase | src/components/ListaDeputados.jsx:51-57 | the fixed parameters give itens=50, dataInicio=2023-01-01, ordem=ASC, ordenarPor=nome, pagina=<current page>, and no other key |
| Request.GetRequestParams | src/components/ListaDeputados.jsx:51-60 | a lookup in the request finds a fixed parameter first, otherwise the non-empty filter named by the key, otherwise nothing |
| Request.RequestParamsLookup | src/components/ListaDeputados.jsx:56-60 | `nome`, `siglaUf` and `siglaPartido` are present if and only if the matching filter is non-empty, with the filter text verbatim; `pagina` is the current page |
| Request.RequestParamsShape | src/components/ListaDeputados.jsx:51-60 | the five fixed parameters come first, in order; the total length is 5 plus the number of non-empty filters; the filters follow in the order name, state, party |
| Request.RequestParamsExample | src/components/ListaDeputados.jsx:51-60 | name "ana", state "SP", no party, page 1 gives `…pagina=1, nome=ana, siglaUf=SP` and no party key |
| Pagination.LastLink | src/components/ListaDeputados.jsx:71 | `links.find(rel === 'last')`: `None` exactly when no link has rel "last", otherwise the first such link |
| Pagination.ResolveTotalPages | src/components/ListaDeputados.jsx:71-77 | the page of the first "last" link if any; otherwise the current page when the deduplicated list is non-empty, and 1 when it is empty |
| Pagination.ResolveIgnoresLaterLinks | src/components/ListaDeputados.jsx:71 | once a "last" link exists, links after it do not change the count |
| Pagination.ResolveTotalPagesPositive | src/components/ListaDeputados.jsx:71-77 | the count is at least 1 when the current page and every "last" page are |
| Pagination.ResolveTotalPagesExamples | src/components/ListaDeputados.jsx:71-77 | "last" to page 7 gives 7; no link, 3 records on page 2 gives 2; no link, no records gives 1 |
| ListaDeputados.UfsFacts | src/components/ListaDeputados.jsx:100 | the state list has 27 distinct two-letter upper-case codes |
| ListaDeputados.Controller.constructor | src/components/ListaDeputados.jsx:26-41 | initial state: no records, loading, page 1, 1 total page, empty draft and query, no options |
| ListaDeputados.Controller.EditNome | src/components/ListaDeputados.jsx:144 | the name input changes only the draft's name |
| ListaDeputados.Controller.EditUf | src/components/ListaDeputados.jsx:149 | the state select changes only the draft's state |
| ListaDeputados.Controller.EditPartido | src/components/ListaDeputados.jsx:156 | the party select changes only the draft's party |
| ListaDeputados.Controller.Commit | src/components/ListaDeputados.jsx:107-116 | the query becomes the draft and the page becomes 1, whatever it was; draft, records and page count unchanged |
| ListaDeputados.Controller.GoToPage | src/components/ListaDeputados.jsx:118-121 | only the page changes: query, draft, records and page count unchanged |
| ListaDeputados.Controller.BeginFetch | src/components/ListaDeputados.jsx:47-60 | loading is set; the request carries the current page and the parameters of the current query and page; records and page count unchanged |
| ListaDeputados.Controller.ApplySuccess | src/components/ListaDeputados.jsx:65-84 | with `dados`, the records become the deduplicated payload; with `links` too, the page count is resolved using the request's page; a missing field leaves the later state as it was; loading is cleared; records stay id-distinct |
| ListaDeputados.Controller.ApplyFailure | src/components/ListaDeputados.jsx:79-84 | loading is cleared; records and page count keep their previous values |
| ListaDeputados.Controller.LoadFilterOptions | src/components/ListaDeputados.jsx:100-101 | the state options become the fixed list |
| ListaDeputados.Controller.ApplyParties | src/components/ListaDeputados.jsx:93-97 | the party options are the received parties' codes, in order |
| ListaDeputados.SearchFromLaterPage | src/components/ListaDeputados.jsx:107-116 | from page 4, searching for "ana" in "SP" issues the page-1 request with `nome=ana&siglaUf=SP` and no party |
| ListaDeputados.FetchWithDuplicates | src/components/ListaDeputados.jsx:65-77 | a first page with ids 1, 2, 1 and no "last" link shows the first two records and one page |

Behaviour of the code that the model follows on purpose:

- A body that has `dados` but no `links` is not a clean failure. The records are replaced (line 68) before the link search throws (line 71), so only the page count keeps its old value.
- The response status is never checked. An error body counts as a failure only because it lacks `dados`.
- `handlePageChange` does no range check, so `GoToPage` accepts any integer.
- The state list is in the component's order, which is not alphabetical.

## Left out

- Rendering, Material-UI widgets, styling and `window.scrollTo` (lines 120, 124-233): presentation with no state logic.
- The network calls and `response.json()` (lines 62-63, 94-95). The decoded body is an input to `ApplySuccess` and `ApplyParties`. A rejected request or body is a call to `ApplyFailure`.
- If the party-list request fails, the source does not catch it and the party options stay empty. No method models it because nothing changes.
- URL handling. The model does not percent-encode or serialise parameters (`toString`). It does not parse the "last" link's `href` or apply `parseInt` to it (lines 62, 73-74). A link is its `rel` plus an already-extracted integer page, so `NaN` page counts are not modelled.
- React effect scheduling and state batching (lines 46-88, 91-103). The model has no concurrency, so each fetch completes before the next begins. The race between overlapping fetches, where a stale response can win, is therefore not modelled.
- Decimal.IntToDecimal: gives plain decimal text for every integer. A JavaScript Number is a double, so `String` writes page values of magnitude 10^21 or more in exponent form ("1e+21"), and integers beyond 2^53 are not exact. The model does not capture either.
- The `console.error` call on a failed fetch (line 81) is a log message with no effect on state. `ApplyFailure` does not model it.
- `src/main.jsx` only mounts the component and is not part of this model.

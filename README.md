# cantera-papers: a verified model of the paper store, the metadata mungers and the source dispatch

The cantera-papers service lets contributors submit papers by DOI. This project models the
three parts of it that have behaviour one can state, and proves properties about them:

- **The paper store** (`app/crud.py` over the `Paper` record of `app/models.py`). The
  `papers` table is a class `Crud.PaperStore` holding the rows as a sequence in insertion
  order. Its invariant is the table's two constraints: dois are unique and ids are unique.
  `Create` is create-or-get over the `data` dict, a map from keys to strings. It reads
  `data["doi"]` first. If a row has that doi, that row is returned and the table is
  unchanged, whether or not `data` has a title. Otherwise it reads `data["title"]` and appends
  one row with that doi and title, a fresh id and both flags false. A missing key is a
  KeyError, and nothing is added. `DoiExists` looks a row up by doi. `GetByDoi` does the same
  but only finds a displayed row. The two lookups have no `modifies` clause, so they cannot
  change the store. The spec functions `Created` and `AfterCreate` describe what `Create`
  returns and the table it leaves. The lemmas beside them prove that the original row wins on
  resubmission, that a new doi adds exactly one row with the defaults, that a missing key
  changes nothing, that both constraints are kept, and that creating twice is the same as
  creating once.
- **The metadata mungers** (`app/external.py`). An upstream response is a decoded JSON value
  (`External.Json`). The keyword arguments a munger receives are the fields of a JSON object.
  `DataCiteMunger` takes `doi` and `titles[0]["title"]`. `CrossrefMunger` re-keys upper-case
  `DOI` to `doi` and takes `title[0]`. Apart from `NotAString` (see "## Left out"), each
  failure is the exception Python would raise, given as an `Error` value: a missing argument,
  a value of the wrong shape, an empty list, a missing key. The lemmas prove that each munger succeeds on every record whose doi is a string
  and whose first title is a string, whatever else the first title entry, the later titles
  and the other fields hold. They also prove that only the two named fields matter, and that
  an empty title list is an error. `DataCiteResponse` and `CrossrefResponse` also model the
  envelope step (`.get("data").get("attributes")` and `.get("message")`).
- **The source dispatch** (`post_doi` in `app/main.py`). `App.DataSource` is the three-value
  enum. `App.PostDoi` sends `figshare` and `zenodo` to DataCite and `crossref` to Crossref,
  and returns the resolver's record unchanged. `PostDoi` is a `match` over the enum, which
  Dafny checks is total. So the source's `if`/`elif` has no fall-through case here.

The network is a parameter: `fetch: HttpGet -> Option<Json>` gives the decoded body of a GET
request. `None` means the call or the JSON decoding raised.

This revision of the service extracts only `doi` and `title`, so `PaperData` has exactly
those two fields. `app/crud.py` has no approve, display or listing code, so none is modelled.

Files: `results.dfy` (Option, Result), `models.dfy`, `crud.dfy`, `external.dfy`, `app.dfy`.

## Model

| member | source | states |
|---|---|---|
| Models.NewPaper | app/models.py:12-13 | `models.Paper(doi=..., title=...)` as app/crud.py:10 builds it: the given id, doi and title, and both flags at their column default, false |
| Models.UniqueDois | app/models.py:10 | Defines the `unique=True` constraint: no two rows share a doi |
| Models.UniqueIds | app/models.py:9 | Defines the primary-key constraint: no two rows share an id |
| Models.WellFormed | app/models.py:9-10 | Defines the table's constraints together: unique ids and unique dois |
| Models.UniqueDoisAppend | app/models.py:10 | Appending a row keeps the doi column unique if and only if no existing row has that doi |
| Models.UniqueIdsAppend | app/models.py:9 | Appending a row keeps the primary key unique if and only if no existing row has that id |
| Models.MaxId | app/models.py:9 | The largest id in a non-empty table: no row's id is larger, and some row has it |
| Models.NextRowId | app/models.py:9 | The id the engine gives a new row is larger than every id in use, and is one more than the largest id (1 in an empty table) |
| Crud.FirstIndex | app/crud.py:19 | `.first()` of a filtered query: the index of a row the filter keeps with no kept row before it in table order, or none exactly when the filter keeps no row |
| Crud.FindByDoi | app/crud.py:18-19 | The doi query returns a stored row with that doi, or none exactly when no row has the doi |
| Crud.FindDisplayedByDoi | app/crud.py:22-27 | The displayed-doi query returns a stored row with that doi that is displayed, or none exactly when no such row exists |
| Crud.FindByDoiIsTheRow | app/crud.py:18-19 | With unique dois, the doi query returns the one row that has the doi |
| Crud.DisplayedLookupRestrictsDoiLookup | app/crud.py:22-27 | With unique dois, the displayed lookup equals the doi lookup when that row is displayed, and none otherwise |
| Crud.Created | app/crud.py:6-15 | A dict without `doi` is a KeyError; any returned paper carries the requested doi |
| Crud.AfterCreate | app/crud.py:6-15 | Create-or-get keeps every existing row in place and adds at most one row. A returned paper is in the table, and a KeyError leaves the table unchanged |
| Crud.CreateExistingReturnsStored | app/crud.py:7-8 | When a row has the doi, that row is returned and the table is unchanged, whatever title `data` carries or lacks |
| Crud.CreateNewAppendsRow | app/crud.py:10-12 | When no row has the doi and `data` has a title, exactly one row is appended: the data's doi and title, an id no other row has, not displayed and not approved |
| Crud.CreateMissingKeyChangesNothing | app/crud.py:7-10 | A dict without `doi`, or a new doi without `title`, gives that KeyError and leaves the table unchanged |
| Crud.CreatePreservesWellFormed | app/crud.py:6-15 | Create-or-get keeps dois unique and ids unique |
| Crud.CreateIdempotent | app/crud.py:6-15 | After a successful create, a second create with the same doi leaves the same table and returns the same paper |
| Crud.PaperStore.Valid | app/models.py:9-10 | Defines the store's invariant: its rows meet both table constraints |
| Crud.PaperStore.DoiExists | app/crud.py:18-19 | Returns the row whose doi is the argument, and none exactly when no row has it; reads the store only |
| Crud.PaperStore.GetByDoi | app/crud.py:22-27 | Returns the row with the doi only when it is displayed, and none exactly when no row with the doi is displayed; reads the store only |
| Crud.PaperStore.Create | app/crud.py:6-15 | Keeps the table's invariant. A missing `doi` is a KeyError. An existing doi returns the stored row and changes nothing. A new doi without a title is a KeyError and changes nothing; with one it appends one row with the data's doi and title and both flags false |
| External.Member | app/external.py:27 | Python's `value.get(key)`: fails exactly when the value is not a dict, gives the key's value when the dict has the key, and None (JSON null) for a missing key |
| External.Kwargs | app/external.py:27 | Python's `**value`: fails exactly when the value is not a dict, and otherwise the keyword arguments are exactly the dict's entries |
| External.First | app/external.py:21 | Python's `value[0]`: succeeds exactly on a non-empty list or string, giving the list's first item or the string's first character; an empty one is an IndexError |
| External.Field | app/external.py:21 | Python's `value["title"]`: succeeds exactly on a dict that has the key, and gives that key's value |
| External.DataCiteEndpoint | app/external.py:26 | The DataCite request is exactly a GET of `/dois/` followed by the doi, under the DataCite base URL |
| External.DataCiteMunger | app/external.py:18-21 | A result's doi is the `doi` argument and its title is the `title` of the first element of `titles`; a missing argument is an error |
| External.DataCiteAcceptsFirstTitle | app/external.py:18-21 | Attributes whose `doi` is `d.doi` and whose first `titles` entry has title `d.title` yield exactly `d`, whatever else that entry, the later titles and the other attributes hold |
| External.DataCiteIgnoresOtherFields | app/external.py:19-21 | Two attribute sets that agree on `doi` and `titles` give the same result |
| External.DataCiteEmptyTitlesFails | app/external.py:21 | An empty `titles` list is an index error and produces no record |
| External.DataCiteResponse | app/external.py:27 | A body that nests an object under `data.attributes` gives exactly the munger's result on that object, and any other body fails |
| External.DataCiteRequest | app/external.py:17-27 | A failed request is an error, and an answered request gives exactly `DataCiteResponse` of the body for `/dois/{doi}` |
| External.CrossrefEndpoint | app/external.py:39 | The Crossref request is exactly a GET of `/works/` followed by the doi, under the Crossref base URL |
| External.CrossrefMunger | app/external.py:31-34 | A result's doi is the upper-case `DOI` argument and its title is `title[0]`; a missing argument is an error |
| External.CrossrefAcceptsFirstTitle | app/external.py:31-34 | A message whose `DOI` is `d.doi` and whose `title[0]` is `d.title` yields exactly `d`, whatever later titles and other fields it holds |
| External.CrossrefIgnoresOtherFields | app/external.py:32-34 | Two messages that agree on `DOI` and `title` give the same result, so a lower-case `doi` is ignored |
| External.CrossrefEmptyTitleFails | app/external.py:34 | An empty `title` list is an index error and produces no record |
| External.CrossrefResponse | app/external.py:40 | A body that nests an object under `message` gives exactly the munger's result on that object, and any other body fails |
| External.CrossrefRequest | app/external.py:30-40 | A failed request is an error, and an answered request gives exactly `CrossrefResponse` of the body for `/works/{doi}` |
| App.SourceValue | app/main.py:17-19 | Defines the string value of each enum member: `figshare`, `zenodo`, `crossref` |
| App.ParseSource | app/main.py:16-19 | A parsed source has exactly the given string value, and a string that is no member's value parses to none |
| App.SourceValueRoundTrip | app/main.py:16-19 | Every enum member parses back from its own value |
| App.Endpoint | app/main.py:24-27 | figshare and zenodo query the DataCite base URL, and crossref queries the Crossref base URL |
| App.PostDoi | app/main.py:22-28 | When the selected endpoint's request fails, the route fails |
| App.DataCiteSourcesUseDataCite | app/main.py:24-25 | figshare and zenodo give the DataCite resolver's result, so both give the same response |
| App.CrossrefSourceUsesCrossref | app/main.py:26-27 | crossref gives the Crossref resolver's result |
| App.PostDoiConsultsOneEndpoint | app/main.py:23-28 | The response depends only on the answer of the endpoint the source selects |
| App.PostDoiReturnsResolverRecord | app/main.py:28 | A successful response is the selected endpoint's body as normalised by its resolver, unchanged |
| App.DataCiteAnswerIsReturned | app/main.py:24-25 | For figshare and zenodo, a DataCite answer with a string `doi` and a string first title under `data.attributes` is returned as exactly that record |
| App.CrossrefAnswerIsReturned | app/main.py:26-27 | For crossref, a Crossref answer with a string `DOI` and a string `title[0]` under `message` is returned as exactly that record, re-keyed to `doi` |

## Left out

- HTTP I/O in `datacite_request` and `crossref_request`: the httpx client, its headers, URL quoting and `.json()` decoding are network work. They are the `fetch` parameter. The request path is the unquoted `/dois/{doi}` or `/works/{doi}`.
- Response status codes are not modelled separately. An error body (a 404, say) has no `data` or `message` object, so it fails at the envelope step, as in the source.
- Crud.PaperStore.Create: `data` is a dict with string values only. A value of another type, which Python would hand to the string column, is not modelled.
- Crud.FirstIndex: `.first()` without `order_by` has no order fixed by SQL, so "first in table order" is this model's choice. It does not change any result: with unique dois at most one row passes either lookup's filter (`Crud.FindByDoiIsTheRow`, `Crud.DisplayedLookupRestrictsDoiLookup`).
- FastAPI routing and pydantic validation: these are framework plumbing. An unknown `source` value is rejected before `post_doi` runs; `ParseSource` models only which strings are members.
- External.DataCiteMunger: a `doi` or title that is not a JSON string gives `NotAString`. Python passes such a value through and leaves it to the response model's validation, which is not modelled.
- External.CrossrefMunger: a `DOI` or `title[0]` that is not a JSON string gives `NotAString`, for the same reason.
- JSON numbers are integers here; floating point is not modelled.
- The `Error` cases stand for Python's exception classes. Their messages are not modelled.
- SQLAlchemy session mechanics (`add`, `commit`, `refresh`, query building): the table is an in-memory sequence. A commit that fails is not modelled.
- Models.NextRowId: the engine's id for a new row follows SQLite's rowid rule (one more than the largest id). Ids are unbounded integers, so the 64-bit rowid limit and SQLite's random choice beyond it are not modelled.
- `app/config.py`: environment-loaded settings with no logic.
- Async execution and concurrent submissions: two concurrent creates of one new doi are a race that the database's unique constraint resolves. The model runs one call at a time.
- OAuth login, session cookies, team membership, the approve and display transitions, the list views and the `url` field: `app/crud.py`, `app/external.py` and `app/main.py` contain none of them.
- `tests/test_external.py` and `tests/test_main.py` call live services, so they are not modelled. `tests/test_main.py` asserts that the response has exactly the keys `doi` and `title`, which is the shape of `PaperData`. `tests/test_external.py` asserts that the returned doi equals the requested one and that a `title` key is present.
- The returned doi is not tied to the requested one. Like app/external.py:21 and :34, both mungers return whatever doi the upstream record holds. So the property `tests/test_external.py` checks against live services is not a promise of the model.

/** The `/paper` route of app/main.py: a declared source selects one of the two metadata
    clients, whose record is returned as the response body. */
module App {
  import opened Results
  import opened External

  /** `DataSource`: the three accepted values of the `source` query parameter. */
  datatype DataSource = Figshare | Zenodo | Crossref

  /** The string value of each enum member. */
  function SourceValue(source: DataSource): string
  {
    match source
    case Figshare => "figshare"
    case Zenodo => "zenodo"
    case Crossref => "crossref"
  }

  /** `DataSource(value)`: the member with that string value, if any. */
  function ParseSource(value: string): (r: Option<DataSource>)
    ensures r.Some? ==> SourceValue(r.value) == value
    ensures r.None? ==> forall source: DataSource :: SourceValue(source) != value
  {
    if value == "figshare" then Some(Figshare)
    else if value == "zenodo" then Some(Zenodo)
    else if value == "crossref" then Some(Crossref)
    else None
  }

  /** Distinct members have distinct values, so every member parses back to itself. */
  lemma SourceValueRoundTrip(source: DataSource)
    ensures ParseSource(SourceValue(source)) == Some(source)
  {
  }

  /** The upstream request that the resolver for `source` makes for `doi`. */
  function Endpoint(source: DataSource, doi: string): (e: HttpGet)
    ensures e.baseUrl == DataCiteUrl <==> source != Crossref
    ensures e.baseUrl == CrossrefUrl <==> source == Crossref
  {
    match source
    case Figshare => DataCiteEndpoint(doi)
    case Zenodo => DataCiteEndpoint(doi)
    case Crossref => CrossrefEndpoint(doi)
  }

  /** `post_doi(doi, source)`: the record the resolver for `source` returns, unchanged, as the
      `PaperModel` body {doi, title}. The `if`/`elif` covers every member of
      the enum, so the match has no other case. */
  function PostDoi(doi: string, source: DataSource, fetch: HttpGet -> Option<Json>): (r: Result<PaperData, Error>)
    ensures fetch(Endpoint(source, doi)).None? ==> r == Failure(RequestFailed)
  {
    match source
    case Figshare => DataCiteRequest(doi, fetch)
    case Zenodo => DataCiteRequest(doi, fetch)
    case Crossref => CrossrefRequest(doi, fetch)
  }

  /** figshare and zenodo are both resolved through DataCite. */
  lemma DataCiteSourcesUseDataCite(doi: string, source: DataSource, fetch: HttpGet -> Option<Json>)
    requires source == Figshare || source == Zenodo
    ensures PostDoi(doi, source, fetch) == DataCiteRequest(doi, fetch)
    ensures PostDoi(doi, Figshare, fetch) == PostDoi(doi, Zenodo, fetch)
  {
  }

  /** crossref is resolved through Crossref. */
  lemma CrossrefSourceUsesCrossref(doi: string, fetch: HttpGet -> Option<Json>)
    ensures PostDoi(doi, Crossref, fetch) == CrossrefRequest(doi, fetch)
  {
  }

  /** The response depends on the selected endpoint's answer alone: no other upstream
      request influences it. */
  lemma PostDoiConsultsOneEndpoint(doi: string, source: DataSource, fetch: HttpGet -> Option<Json>,
                                   other: HttpGet -> Option<Json>)
    requires fetch(Endpoint(source, doi)) == other(Endpoint(source, doi))
    ensures PostDoi(doi, source, fetch) == PostDoi(doi, source, other)
  {
  }

  /** A successful response is exactly the normalised record of the selected endpoint's body. */
  lemma PostDoiReturnsResolverRecord(doi: string, source: DataSource, fetch: HttpGet -> Option<Json>)
    requires PostDoi(doi, source, fetch).Success?
    ensures fetch(Endpoint(source, doi)).Some?
    ensures var body := fetch(Endpoint(source, doi)).value;
            PostDoi(doi, source, fetch) ==
              if source == Crossref then CrossrefResponse(body) else DataCiteResponse(body)
  {
  }

  /** End to end for figshare and zenodo: a DataCite answer whose `data.attributes` has a string
      `doi` and a first `titles` entry with a string `title` is returned as exactly that record. */
  lemma DataCiteAnswerIsReturned(doi: string, source: DataSource, fetch: HttpGet -> Option<Json>, d: PaperData)
    requires source == Figshare || source == Zenodo
    requires fetch(DataCiteEndpoint(doi)).Some?
    requires HasDataCiteEnvelope(fetch(DataCiteEndpoint(doi)).value)
    requires var attributes := DataCiteAttributes(fetch(DataCiteEndpoint(doi)).value);
             && "doi" in attributes && attributes["doi"] == JString(d.doi)
             && "titles" in attributes && IsFirstTitleOf(d.title, attributes["titles"])
    ensures PostDoi(doi, source, fetch) == Success(d)
  {
    DataCiteAcceptsFirstTitle(DataCiteAttributes(fetch(DataCiteEndpoint(doi)).value), d);
  }

  /** End to end for crossref: a Crossref answer whose `message` has a string `DOI` and a string
      `title[0]` is returned as exactly that record, re-keyed to `doi`. */
  lemma CrossrefAnswerIsReturned(doi: string, fetch: HttpGet -> Option<Json>, d: PaperData)
    requires fetch(CrossrefEndpoint(doi)).Some?
    requires HasCrossrefEnvelope(fetch(CrossrefEndpoint(doi)).value)
    requires var message := CrossrefMessage(fetch(CrossrefEndpoint(doi)).value);
             && "DOI" in message && message["DOI"] == JString(d.doi)
             && "title" in message && IsFirstOf(d.title, message["title"])
    ensures PostDoi(doi, Crossref, fetch) == Success(d)
  {
    CrossrefAcceptsFirstTitle(CrossrefMessage(fetch(CrossrefEndpoint(doi)).value), d);
  }
}

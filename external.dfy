/** The two metadata clients of app/external.py: the requests they make and the
    mungers that turn an upstream record into the canonical {doi, title} pair. */
module External {
  import opened Results

  /** A decoded JSON value, as `response.json()` yields it (numbers are integers here). */
  datatype Json =
    | JNull
    | JBool(b: bool)
    | JNumber(n: int)
    | JString(s: string)
    | JArray(items: seq<Json>)
    | JObject(fields: map<string, Json>)

  /** The dict both mungers return: exactly the keys `doi` and `title`. */
  datatype PaperData = PaperData(doi: string, title: string)

  /** Why a request produced no record; each case but `NotAString` is the exception Python raises. */
  datatype Error =
    | RequestFailed                  // the HTTP call or `.json()` raised
    | NotAnObject(key: string)       // `.get(key)` on a value that is not a dict (AttributeError)
    | NotAMapping                    // `**value` on a value that is not a dict (TypeError)
    | MissingArgument(name: string)  // a required keyword-only parameter was not supplied (TypeError)
    | NotSubscriptable(name: string) // `value[...]` on a value of the wrong shape (TypeError, KeyError)
    | EmptySequence(name: string)    // `value[0]` on an empty list or string (IndexError)
    | MissingKey(name: string)       // `value["title"]` on a dict without that key (KeyError)
    | NotAString(name: string)       // a field that the annotations declare `str` holds something else

  /** A GET request to `path` under `baseUrl`. */
  datatype HttpGet = HttpGet(baseUrl: string, path: string)

  const DataCiteUrl: string := "https://api.datacite.org"
  const CrossrefUrl: string := "https://api.crossref.org"

  /** `value.get(key)`: a missing key reads as None, here JNull. */
  function Member(v: Json, key: string): (r: Result<Json, Error>)
    ensures r.Success? <==> v.JObject?
    ensures v.JObject? && key in v.fields ==> r == Success(v.fields[key])
    ensures v.JObject? && key !in v.fields ==> r == Success(JNull)
  {
    match v
    case JObject(fields) => Success(if key in fields then fields[key] else JNull)
    case _ => Failure(NotAnObject(key))
  }

  /** `**value`: only a dict can be spread into keyword arguments. */
  function Kwargs(v: Json): (r: Result<map<string, Json>, Error>)
    ensures r.Success? <==> v.JObject?
    ensures v.JObject? ==> r == Success(v.fields)
  {
    match v
    case JObject(fields) => Success(fields)
    case _ => Failure(NotAMapping)
  }

  /** `value[0]`: the first item of a list, or the first character of a string. */
  function First(v: Json, name: string): (r: Result<Json, Error>)
    ensures r.Success? <==> (v.JArray? && v.items != []) || (v.JString? && v.s != [])
    ensures v.JArray? && v.items != [] ==> r == Success(v.items[0])
    ensures v.JString? && v.s != [] ==> r == Success(JString([v.s[0]]))
    ensures r.Failure? && (v.JArray? || v.JString?) ==> r.error == EmptySequence(name)
  {
    match v
    case JArray(items) => if items == [] then Failure(EmptySequence(name)) else Success(items[0])
    case JString(s) => if s == [] then Failure(EmptySequence(name)) else Success(JString([s[0]]))
    case _ => Failure(NotSubscriptable(name))
  }

  /** `value[key]` for a string key: only a dict has it. */
  function Field(v: Json, key: string, name: string): (r: Result<Json, Error>)
    ensures r.Success? <==> v.JObject? && key in v.fields
    ensures v.JObject? && key in v.fields ==> r == Success(v.fields[key])
  {
    match v
    case JObject(fields) => if key in fields then Success(fields[key]) else Failure(MissingKey(name))
    case _ => Failure(NotSubscriptable(name))
  }

  function AsString(v: Json, name: string): Result<string, Error>
  {
    match v
    case JString(s) => Success(s)
    case _ => Failure(NotAString(name))
  }

  // ---------------------------------------------------------------- DataCite

  /** `t` is what `v[0]["title"]` gives: the `title` string of the first entry of a list. */
  predicate IsFirstTitleOf(t: string, v: Json)
  {
    v.JArray? && v.items != [] && v.items[0].JObject?
    && "title" in v.items[0].fields && v.items[0].fields["title"] == JString(t)
  }

  /** The request `datacite_request(doi)` makes: GET /dois/{doi} from DataCite. */
  function DataCiteEndpoint(doi: string): (e: HttpGet)
    ensures e == HttpGet(DataCiteUrl, "/dois/" + doi)
  {
    HttpGet(DataCiteUrl, "/dois/" + doi)
  }

  /** `datacite_munger(*, doi, titles, **response)`: the doi and the title of the first entry
      of `titles`; every other attribute is absorbed by `**response` and ignored. */
  function DataCiteMunger(kwargs: map<string, Json>): (r: Result<PaperData, Error>)
    ensures r.Success? ==> "doi" in kwargs && kwargs["doi"] == JString(r.value.doi)
    ensures r.Success? ==> "titles" in kwargs && IsFirstTitleOf(r.value.title, kwargs["titles"])
    ensures "doi" !in kwargs || "titles" !in kwargs ==> r.Failure? && r.error.MissingArgument?
  {
    if "doi" !in kwargs then Failure(MissingArgument("doi"))
    else if "titles" !in kwargs then Failure(MissingArgument("titles"))
    else
      var entry :- First(kwargs["titles"], "titles");
      var title :- Field(entry, "title", "titles[0]");
      var doi :- AsString(kwargs["doi"], "doi");
      var text :- AsString(title, "title");
      Success(PaperData(doi, text))
  }

  /** Attributes whose `doi` is `d.doi` and whose first `titles` entry has title `d.title` yield
      exactly `d`, whatever other keys that entry has, whatever titles follow it, and whatever
      other attributes there are. */
  lemma DataCiteAcceptsFirstTitle(kwargs: map<string, Json>, d: PaperData)
    requires "doi" in kwargs && kwargs["doi"] == JString(d.doi)
    requires "titles" in kwargs && IsFirstTitleOf(d.title, kwargs["titles"])
    ensures DataCiteMunger(kwargs) == Success(d)
  {
  }

  /** Only the `doi` and `titles` keyword arguments decide the result. */
  lemma DataCiteIgnoresOtherFields(a: map<string, Json>, b: map<string, Json>)
    requires forall key :: key in {"doi", "titles"} ==>
               (key in a <==> key in b) && (key in a ==> a[key] == b[key])
    ensures DataCiteMunger(a) == DataCiteMunger(b)
  {
  }

  /** An empty `titles` list is an IndexError: no record is produced. */
  lemma DataCiteEmptyTitlesFails(kwargs: map<string, Json>)
    requires "doi" in kwargs && "titles" in kwargs && kwargs["titles"] == JArray([])
    ensures DataCiteMunger(kwargs) == Failure(EmptySequence("titles"))
  {
  }

  /** `body` nests an attributes object under `data.attributes`. */
  predicate HasDataCiteEnvelope(body: Json)
  {
    && body.JObject? && "data" in body.fields && body.fields["data"].JObject?
    && "attributes" in body.fields["data"].fields
    && body.fields["data"].fields["attributes"].JObject?
  }

  /** The attributes object of a DataCite body, as the munger's keyword arguments. */
  function DataCiteAttributes(body: Json): map<string, Json>
    requires HasDataCiteEnvelope(body)
  {
    body.fields["data"].fields["attributes"].fields
  }

  /** The record of a DataCite response body: `body.get("data").get("attributes")`. */
  function DataCiteResponse(body: Json): (r: Result<PaperData, Error>)
    ensures !body.JObject? ==> r == Failure(NotAnObject("data"))
    ensures HasDataCiteEnvelope(body) ==> r == DataCiteMunger(DataCiteAttributes(body))
    ensures r.Success? ==> HasDataCiteEnvelope(body)
  {
    var data :- Member(body, "data");
    var attributes :- Member(data, "attributes");
    var kwargs :- Kwargs(attributes);
    DataCiteMunger(kwargs)
  }

  /** `datacite_request(doi)`: GET /dois/{doi} from DataCite, then normalise. */
  function DataCiteRequest(doi: string, fetch: HttpGet -> Option<Json>): (r: Result<PaperData, Error>)
    ensures fetch(DataCiteEndpoint(doi)).None? ==> r == Failure(RequestFailed)
    ensures fetch(DataCiteEndpoint(doi)).Some? ==> r == DataCiteResponse(fetch(DataCiteEndpoint(doi)).value)
  {
    match fetch(DataCiteEndpoint(doi))
    case None => Failure(RequestFailed)
    case Some(body) => DataCiteResponse(body)
  }

  // ---------------------------------------------------------------- Crossref

  /** The request `crossref_request(doi)` makes: GET /works/{doi} from Crossref. */
  function CrossrefEndpoint(doi: string): (e: HttpGet)
    ensures e == HttpGet(CrossrefUrl, "/works/" + doi)
  {
    HttpGet(CrossrefUrl, "/works/" + doi)
  }

  /** `t` is what `v[0]` gives: the first string of a list, or the first character of a string. */
  predicate IsFirstOf(t: string, v: Json)
  {
    match v
    case JArray(items) => items != [] && items[0] == JString(t)
    case JString(s) => s != [] && t == [s[0]]
    case _ => false
  }

  /** `crossref_munger(*, DOI, title, **response)`: the upper-case `DOI` becomes `doi` and
      `title[0]` becomes `title`; every other field is ignored. Like Python, `title[0]` of a
      non-empty string is its first character. */
  function CrossrefMunger(kwargs: map<string, Json>): (r: Result<PaperData, Error>)
    ensures r.Success? ==> "DOI" in kwargs && kwargs["DOI"] == JString(r.value.doi)
    ensures r.Success? ==> "title" in kwargs && IsFirstOf(r.value.title, kwargs["title"])
    ensures "DOI" !in kwargs || "title" !in kwargs ==> r.Failure? && r.error.MissingArgument?
  {
    if "DOI" !in kwargs then Failure(MissingArgument("DOI"))
    else if "title" !in kwargs then Failure(MissingArgument("title"))
    else
      var title :- First(kwargs["title"], "title");
      var doi :- AsString(kwargs["DOI"], "DOI");
      var text :- AsString(title, "title");
      Success(PaperData(doi, text))
  }

  /** A message whose `DOI` is `d.doi` and whose `title[0]` is `d.title` yields exactly `d`,
      whatever titles follow the first and whatever other fields there are. */
  lemma CrossrefAcceptsFirstTitle(kwargs: map<string, Json>, d: PaperData)
    requires "DOI" in kwargs && kwargs["DOI"] == JString(d.doi)
    requires "title" in kwargs && IsFirstOf(d.title, kwargs["title"])
    ensures CrossrefMunger(kwargs) == Success(d)
  {
  }

  /** Only the `DOI` and `title` keyword arguments decide the result; in particular a
      lower-case `doi` field is ignored. */
  lemma CrossrefIgnoresOtherFields(a: map<string, Json>, b: map<string, Json>)
    requires forall key :: key in {"DOI", "title"} ==>
               (key in a <==> key in b) && (key in a ==> a[key] == b[key])
    ensures CrossrefMunger(a) == CrossrefMunger(b)
  {
  }

  /** An empty `title` list is an IndexError: no record is produced. */
  lemma CrossrefEmptyTitleFails(kwargs: map<string, Json>)
    requires "DOI" in kwargs && "title" in kwargs && kwargs["title"] == JArray([])
    ensures CrossrefMunger(kwargs) == Failure(EmptySequence("title"))
  {
  }

  /** `body` nests a message object under `message`. */
  predicate HasCrossrefEnvelope(body: Json)
  {
    body.JObject? && "message" in body.fields && body.fields["message"].JObject?
  }

  /** The message object of a Crossref body, as the munger's keyword arguments. */
  function CrossrefMessage(body: Json): map<string, Json>
    requires HasCrossrefEnvelope(body)
  {
    body.fields["message"].fields
  }

  /** The record of a Crossref response body: `body.get("message")`. */
  function CrossrefResponse(body: Json): (r: Result<PaperData, Error>)
    ensures !body.JObject? ==> r == Failure(NotAnObject("message"))
    ensures HasCrossrefEnvelope(body) ==> r == CrossrefMunger(CrossrefMessage(body))
    ensures r.Success? ==> HasCrossrefEnvelope(body)
  {
    var message :- Member(body, "message");
    var kwargs :- Kwargs(message);
    CrossrefMunger(kwargs)
  }

  /** `crossref_request(doi)`: GET /works/{doi} from Crossref, then normalise. */
  function CrossrefRequest(doi: string, fetch: HttpGet -> Option<Json>): (r: Result<PaperData, Error>)
    ensures fetch(CrossrefEndpoint(doi)).None? ==> r == Failure(RequestFailed)
    ensures fetch(CrossrefEndpoint(doi)).Some? ==> r == CrossrefResponse(fetch(CrossrefEndpoint(doi)).value)
  {
    match fetch(CrossrefEndpoint(doi))
    case None => Failure(RequestFailed)
    case Some(body) => CrossrefResponse(body)
  }
}

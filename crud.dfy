/** The paper store of app/crud.py: a create-or-get and two lookups over the `papers` table,
    which is held in memory as a sequence of rows in insertion order. The `data` argument of
    `create_db_paper` is a dict, here a map from keys to string values. */
module Crud {
  import opened Results
  import opened Models

  /** Position of the first row, in table order, that a query filter keeps (`Query.first()`).
      Without `order_by` SQL fixes no order, so table order is this model's choice; it does not
      matter here, since with unique dois at most one row passes either filter of this module. */
  function FirstIndex(rows: seq<Paper>, keep: Paper -> bool): (r: Option<nat>)
    ensures r.Some? ==> r.value < |rows| && keep(rows[r.value])
    ensures r.Some? ==> forall j :: 0 <= j < r.value ==> !keep(rows[j])
    ensures r.None? ==> forall j :: 0 <= j < |rows| ==> !keep(rows[j])
  {
    if rows == [] then None
    else if keep(rows[0]) then Some(0)
    else
      match FirstIndex(rows[1..], keep)
      case None => None
      case Some(k) => Some(k + 1)
  }

  /** The filter `Paper.doi == doi`. */
  function DoiFilter(doi: string): Paper -> bool
  {
    (p: Paper) => p.doi == doi
  }

  /** The filter `Paper.doi == doi, Paper.is_displayed`. */
  function DisplayedDoiFilter(doi: string): Paper -> bool
  {
    (p: Paper) => p.doi == doi && p.isDisplayed
  }

  /** `query(Paper).filter(Paper.doi == doi).first()` */
  function FindByDoi(rows: seq<Paper>, doi: string): (r: Option<Paper>)
    ensures r.Some? ==> r.value in rows && r.value.doi == doi
    ensures r.None? <==> forall i :: 0 <= i < |rows| ==> rows[i].doi != doi
  {
    match FirstIndex(rows, DoiFilter(doi))
    case None => None
    case Some(k) => Some(rows[k])
  }

  /** `query(Paper).filter(Paper.doi == doi, Paper.is_displayed).first()` */
  function FindDisplayedByDoi(rows: seq<Paper>, doi: string): (r: Option<Paper>)
    ensures r.Some? ==> r.value in rows && r.value.doi == doi && r.value.isDisplayed
    ensures r.None? <==> forall i :: 0 <= i < |rows| ==> !(rows[i].doi == doi && rows[i].isDisplayed)
  {
    match FirstIndex(rows, DisplayedDoiFilter(doi))
    case None => None
    case Some(k) => Some(rows[k])
  }

  /** With unique dois, the doi lookup finds the one row that has the doi. */
  lemma FindByDoiIsTheRow(rows: seq<Paper>, doi: string, i: nat)
    requires UniqueDois(rows)
    requires i < |rows| && rows[i].doi == doi
    ensures FindByDoi(rows, doi) == Some(rows[i])
  {
  }

  /** With unique dois, the displayed-only lookup is the doi lookup restricted to
      displayed papers. */
  lemma DisplayedLookupRestrictsDoiLookup(rows: seq<Paper>, doi: string)
    requires UniqueDois(rows)
    ensures FindDisplayedByDoi(rows, doi) ==
            match FindByDoi(rows, doi)
            case Some(p) => if p.isDisplayed then Some(p) else None
            case None => None
  {
  }

  /** Why `create_db_paper` raised: `data[key]` on a dict without that key. */
  datatype CreateError = KeyError(key: string)

  /** What `create_db_paper(data)` returns or raises. `data["doi"]` is read first; the stored
      row with that doi wins; only a new doi reads `data["title"]`. */
  function Created(rows: seq<Paper>, data: map<string, string>): (r: Result<Paper, CreateError>)
    ensures "doi" !in data ==> r == Failure(KeyError("doi"))
    ensures r.Success? ==> "doi" in data && r.value.doi == data["doi"]
  {
    if "doi" !in data then Failure(KeyError("doi"))
    else
      match FindByDoi(rows, data["doi"])
      case Some(existing) => Success(existing)
      case None =>
        if "title" !in data then Failure(KeyError("title"))
        else Success(NewPaper(NextRowId(rows), data["doi"], data["title"]))
  }

  /** Whether `create_db_paper(data)` reaches `db.add`: the doi is new and both keys are present. */
  predicate Inserts(rows: seq<Paper>, data: map<string, string>)
  {
    "doi" in data && "title" in data && FindByDoi(rows, data["doi"]).None?
  }

  /** The table after `create_db_paper(data)`: unchanged, or with the new row appended. */
  function AfterCreate(rows: seq<Paper>, data: map<string, string>): (r: seq<Paper>)
    ensures rows <= r && |r| <= |rows| + 1
    ensures Created(rows, data).Success? ==> Created(rows, data).value in r
    ensures Created(rows, data).Failure? ==> r == rows
  {
    if Inserts(rows, data) then rows + [Created(rows, data).value] else rows
  }

  /** Resubmitting a stored doi returns the stored row and leaves the table as it was,
      whatever title the new data carries, and even when it carries none: the original wins. */
  lemma CreateExistingReturnsStored(rows: seq<Paper>, data: map<string, string>, i: nat)
    requires UniqueDois(rows)
    requires "doi" in data && i < |rows| && rows[i].doi == data["doi"]
    ensures Created(rows, data) == Success(rows[i])
    ensures AfterCreate(rows, data) == rows
  {
  }

  /** Submitting a new doi with a title appends exactly one row: the data's doi and title,
      a fresh id, and both flags at their default, false. */
  lemma CreateNewAppendsRow(rows: seq<Paper>, data: map<string, string>)
    requires "doi" in data && "title" in data
    requires forall i :: 0 <= i < |rows| ==> rows[i].doi != data["doi"]
    ensures Created(rows, data).Success?
    ensures AfterCreate(rows, data) == rows + [Created(rows, data).value]
    ensures var p := Created(rows, data).value;
            && p.doi == data["doi"] && p.title == data["title"]
            && !p.isDisplayed && !p.isApproved
            && forall i :: 0 <= i < |rows| ==> rows[i].id != p.id
  {
  }

  /** A dict without `doi`, or a new doi without `title`, raises KeyError before anything is
      added: the table is unchanged. */
  lemma CreateMissingKeyChangesNothing(rows: seq<Paper>, data: map<string, string>)
    requires "doi" !in data || ("title" !in data && forall i :: 0 <= i < |rows| ==> rows[i].doi != data["doi"])
    ensures Created(rows, data) == Failure(KeyError(if "doi" !in data then "doi" else "title"))
    ensures AfterCreate(rows, data) == rows
  {
  }

  /** Create-or-get keeps both table constraints: dois unique and ids unique. */
  lemma CreatePreservesWellFormed(rows: seq<Paper>, data: map<string, string>)
    requires WellFormed(rows)
    ensures WellFormed(AfterCreate(rows, data))
  {
  }

  /** After a create that succeeded, a second create with the same doi leaves the same table,
      and returns the same paper, as the first. */
  lemma CreateIdempotent(rows: seq<Paper>, first: map<string, string>, second: map<string, string>)
    requires Created(rows, first).Success?
    requires "doi" in second && second["doi"] == first["doi"]
    ensures AfterCreate(AfterCreate(rows, first), second) == AfterCreate(rows, first)
    ensures Created(AfterCreate(rows, first), second) == Created(rows, first)
  {
  }

  /** The `papers` table of one database session. */
  class PaperStore {
    var rows: seq<Paper>

    ghost predicate Valid()
      reads this
    {
      WellFormed(rows)
    }

    constructor ()
      ensures Valid() && rows == []
    {
      rows := [];
    }

    /** `db_paper_doi_exists(db, doi)`: the row with that doi, if any. */
    method DoiExists(doi: string) returns (found: Option<Paper>)
      requires Valid()
      ensures found.Some? ==> found.value in rows && found.value.doi == doi
      ensures found.None? <==> forall i :: 0 <= i < |rows| ==> rows[i].doi != doi
      ensures forall i :: 0 <= i < |rows| && rows[i].doi == doi ==> found == Some(rows[i])
    {
      found := FindByDoi(rows, doi);
      forall i | 0 <= i < |rows| && rows[i].doi == doi
        ensures found == Some(rows[i])
      {
        FindByDoiIsTheRow(rows, doi, i);
      }
    }

    /** `get_db_paper_by_doi(db, doi)`: the row with that doi, only if it is displayed. */
    method GetByDoi(doi: string) returns (found: Option<Paper>)
      requires Valid()
      ensures found.Some? ==> found.value in rows && found.value.doi == doi && found.value.isDisplayed
      ensures found.None? <==>
                forall i :: 0 <= i < |rows| && rows[i].doi == doi ==> !rows[i].isDisplayed
      ensures forall i :: 0 <= i < |rows| && rows[i].doi == doi && rows[i].isDisplayed ==>
                found == Some(rows[i])
    {
      found := FindDisplayedByDoi(rows, doi);
      DisplayedLookupRestrictsDoiLookup(rows, doi);
      forall i | 0 <= i < |rows| && rows[i].doi == doi && rows[i].isDisplayed
        ensures found == Some(rows[i])
      {
        FindByDoiIsTheRow(rows, doi, i);
      }
    }

    /** `create_db_paper(db, data)`: return the stored paper with `data.doi` if there is one,
        otherwise insert a new row from `data` and return it. */
    method Create(data: map<string, string>) returns (r: Result<Paper, CreateError>)
      requires Valid()
      modifies this
      ensures Valid()
      ensures rows == AfterCreate(old(rows), data) && r == Created(old(rows), data)
      ensures "doi" !in data ==> r == Failure(KeyError("doi")) && rows == old(rows)
      ensures r.Success? ==> r.value.doi == data["doi"] && r.value in rows
      ensures r.Success? && r.value in old(rows) ==> rows == old(rows)
      ensures "doi" in data && (forall i :: 0 <= i < |old(rows)| ==> old(rows)[i].doi != data["doi"]) ==>
                if "title" in data then
                  r.Success? && rows == old(rows) + [r.value] && r.value.title == data["title"]
                  && !r.value.isDisplayed && !r.value.isApproved
                else
                  r == Failure(KeyError("title")) && rows == old(rows)
    {
      if "doi" !in data {
        return Failure(KeyError("doi"));
      }
      var existing := DoiExists(data["doi"]);
      if existing.Some? {
        return Success(existing.value);
      }
      if "title" !in data {
        return Failure(KeyError("title"));
      }
      var p := NewPaper(NextRowId(rows), data["doi"], data["title"]);
      CreatePreservesWellFormed(rows, data);
      rows := rows + [p];
      r := Success(p);
    }
  }
}

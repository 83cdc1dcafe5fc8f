/** The `papers` table of app/models.py: one record type and the table's constraints. */
module Models {

  /** One row of the `papers` table. */
  datatype Paper = Paper(id: int, doi: string, title: string, isDisplayed: bool, isApproved: bool)

  /** The row built from a doi and a title alone: both flags take their column default, false. */
  function NewPaper(id: int, doi: string, title: string): (p: Paper)
    ensures !p.isDisplayed && !p.isApproved
    ensures p.id == id && p.doi == doi && p.title == title
  {
    Paper(id, doi, title, false, false)
  }

  /** The `unique=True` constraint on the doi column. */
  predicate UniqueDois(rows: seq<Paper>)
  {
    forall i, j :: 0 <= i < j < |rows| ==> rows[i].doi != rows[j].doi
  }

  /** The primary-key constraint on the id column. */
  predicate UniqueIds(rows: seq<Paper>)
  {
    forall i, j :: 0 <= i < j < |rows| ==> rows[i].id != rows[j].id
  }

  /** Every constraint the table declares. */
  predicate WellFormed(rows: seq<Paper>)
  {
    UniqueDois(rows) && UniqueIds(rows)
  }

  /** Appending a row keeps dois unique exactly when no existing row has its doi. */
  lemma UniqueDoisAppend(rows: seq<Paper>, p: Paper)
    ensures UniqueDois(rows + [p]) <==>
            UniqueDois(rows) && forall i :: 0 <= i < |rows| ==> rows[i].doi != p.doi
  {
    var s := rows + [p];
    assert forall i :: 0 <= i < |rows| ==> s[i] == rows[i];
    assert s[|rows|] == p;
  }

  /** Appending a row keeps ids unique exactly when no existing row has its id. */
  lemma UniqueIdsAppend(rows: seq<Paper>, p: Paper)
    ensures UniqueIds(rows + [p]) <==>
            UniqueIds(rows) && forall i :: 0 <= i < |rows| ==> rows[i].id != p.id
  {
    var s := rows + [p];
    assert forall i :: 0 <= i < |rows| ==> s[i] == rows[i];
    assert s[|rows|] == p;
  }

  /** The largest id in a non-empty table. */
  function MaxId(rows: seq<Paper>): (m: int)
    requires rows != []
    ensures forall i :: 0 <= i < |rows| ==> rows[i].id <= m
    ensures exists i :: 0 <= i < |rows| && rows[i].id == m
  {
    if |rows| == 1 then rows[0].id
    else
      var rest := MaxId(rows[1..]);
      if rows[0].id > rest then rows[0].id else rest
  }

  /** The id the database engine gives the next inserted row: one more than the
      largest id in use, or 1 in an empty table (SQLite's rowid rule). */
  function NextRowId(rows: seq<Paper>): (id: int)
    ensures forall i :: 0 <= i < |rows| ==> rows[i].id < id
    ensures rows == [] ==> id == 1
    ensures rows != [] ==> exists i :: 0 <= i < |rows| && rows[i].id == id - 1
  {
    if rows == [] then 1 else MaxId(rows) + 1
  }
}

/** The results presenter: a pure mapping from the fetched repositories and
    the pagination counters to what is shown. Either the "no data" view, or a
    table with one row per repository, a "pageNumber of pages" indicator and
    the Prev / Next triggers, which carry the controller's callbacks. */
module GithubResults {

  /** One repository summary as returned by the listing request. */
  datatype Repo = Repo(name: string, isPrivate: bool, size: int)

  /** One table row: the name, the private column ("yes"/"no"), the size. */
  datatype Row = Row(name: string, privateCell: string, size: int)

  /** What the presenter renders. `A` is the type of the callbacks that the
      Prev and Next triggers invoke. */
  datatype View<A> =
    | NoData
    | Table(rows: seq<Row>, pageNumber: int, pages: int, onPrev: A, onNext: A)
  {
    /** The test identifier carried by the rendered element. */
    function TestId(): string {
      if NoData? then "id-result-no-data" else "id-result-has-data"
    }
  }

  function PrivateCell(isPrivate: bool): string {
    if isPrivate then "yes" else "no"
  }

  function RowOf(r: Repo): Row {
    Row(r.name, PrivateCell(r.isPrivate), r.size)
  }

  /** The table body: one row per result, in the order received. */
  function Rows(results: seq<Repo>): (rows: seq<Row>)
    ensures |rows| == |results|
    ensures forall i :: 0 <= i < |results| ==>
      rows[i].name == results[i].name &&
      rows[i].size == results[i].size &&
      rows[i].privateCell == (if results[i].isPrivate then "yes" else "no")
  {
    if results == [] then [] else [RowOf(results[0])] + Rows(results[1..])
  }

  /** The presenter. The indicator shows the counters as given, and the
      triggers are present whenever there is data, whatever the page. */
  function Render<A(==)>(results: seq<Repo>, pageNumber: int, pages: int, onPrev: A, onNext: A): (v: View<A>)
    ensures v.NoData? <==> |results| == 0
    ensures v.TestId() == (if |results| == 0 then "id-result-no-data" else "id-result-has-data")
    ensures v.Table? ==>
      |v.rows| == |results| &&
      (forall i :: 0 <= i < |results| ==>
        v.rows[i].name == results[i].name &&
        v.rows[i].size == results[i].size &&
        v.rows[i].privateCell == (if results[i].isPrivate then "yes" else "no")) &&
      v.pageNumber == pageNumber && v.pages == pages &&
      v.onPrev == onPrev && v.onNext == onNext
  {
    if |results| > 0 then Table(Rows(results), pageNumber, pages, onPrev, onNext) else NoData
  }
}

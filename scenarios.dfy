/** Client traces over the form controller: the user-level scenarios the
    component is meant to support, and two traces showing what the code does
    where one might expect otherwise. Each fetch outcome is a parameter or a
    chosen value, since the HTTP client is not modelled. */
module Scenarios {
  import opened GithubResults
  import opened GithubForm

  /** The refs as the form presents them: every ref attached, the selectors on
      their default options, page size 5. */
  function DefaultRefs(accountName: string, sort: string): FormRefs {
    FormRefs(Some(accountName), Some("user"), Some("all"), Some(sort), Some(5))
  }

  /** Searching an account that has public repositories, with the default
      selectors and page size 5, renders the has-data table. */
  method SearchShowsTable(reposNumber: int, repos: seq<Repo>) returns (testId: string)
    requires reposNumber > 0 && repos != []
    ensures testId == "id-result-has-data"
  {
    var form := new Form();
    var fetch := form.OnFormSend(DefaultRefs("thomasjohn", "name"));
    assert fetch;
    var _ := form.GetApiData(Profile(reposNumber, Listing(repos)));
    testId := form.Rendered().TestId();
  }

  /** The listing request for page 1 of "thomasjohn"'s repositories, all
      of them, by last update, newest first, five per page, as text. */
  lemma UpdatedDescListingRequest()
    ensures ListingRequest(User, "thomasjohn", All, UpdatedDesc, 5, 1) ==
      Request("users/thomasjohn/repos", Some(Params("all", "updated", "desc", 5, 1)))
  {
  }

  /** Selecting "updated-desc" sends sort "updated" with direction "desc" on
      the listing request. */
  method UpdatedDescRequest(reposNumber: int, listing: ListingOutcome) returns (request: Request)
    requires reposNumber > 0
    ensures request.path == "users/thomasjohn/repos"
    ensures request.params == Some(Params("all", "updated", "desc", 5, 1))
  {
    var form := new Form();
    var refs := DefaultRefs("thomasjohn", "updated-desc");
    assert ParseSort("updated-desc") == Some(UpdatedDesc);
    assert ParseAccountType("user") == Some(User) && ParseRepoType("all") == Some(All);
    var fetch := form.OnFormSend(refs);
    assert fetch;
    assert form.sort == UpdatedDesc && form.accountType == User && form.repoType == All;
    assert form.accountName == "thomasjohn" && form.perPage == 5 && form.pageNumber == 1;
    var requests := form.GetApiData(Profile(reposNumber, listing));
    request := requests[1];
    assert request == ListingRequest(User, "thomasjohn", All, UpdatedDesc, 5, 1);
    UpdatedDescListingRequest();
  }

  /** A search whose profile request fails, after an earlier successful one on
      another page, leaves no results and page 1. */
  method ProfileErrorClears(reposNumber: int, repos: seq<Repo>, refs: FormRefs)
    returns (results: seq<Repo>, pageNumber: int, testId: string)
    requires reposNumber > 5
    requires refs.AllPresent() && refs.perPage.value in PER_PAGE_VALUES
    ensures results == [] && pageNumber == 1
    ensures testId == "id-result-no-data"
  {
    var form := new Form();
    var fetch := form.OnFormSend(DefaultRefs("first", "name"));
    var _ := form.GetApiData(Profile(reposNumber, Listing(repos)));
    fetch := form.OnNextClick();
    assert fetch;
    var _ := form.GetApiData(Profile(reposNumber, Listing(repos)));
    fetch := form.OnFormSend(refs);
    var _ := form.GetApiData(ProfileErr);
    results, pageNumber, testId := form.results, form.pageNumber, form.Rendered().TestId();
  }

  /** A search for an account with no public repositories sends no listing
      request and leaves the previous search's rows on screen. */
  method EmptyAccountKeepsStaleRows(repos: seq<Repo>) returns (requests: seq<Request>, shown: View<Action>)
    requires repos != []
    ensures requests == [ProfileRequest(User, "empty")]
    ensures shown.Table? && shown.rows == Rows(repos)
  {
    var form := new Form();
    var fetch := form.OnFormSend(DefaultRefs("first", "name"));
    var _ := form.GetApiData(Profile(12, Listing(repos)));
    fetch := form.OnFormSend(DefaultRefs("empty", "name"));
    requests := form.GetApiData(Profile(0, ListingErr));
    shown := form.Rendered();
  }

  /** From any state, a complete submission whose profile and listing
      requests succeed for an account with repositories shows that list on
      page 1, within the new page count. Compare PageBeyondLastPage, where a
      later fetch shrinks the count. */
  method SearchLandsInBounds(form: Form, refs: FormRefs, reposNumber: int, repos: seq<Repo>)
    requires form.Valid()
    requires refs.AllPresent() && refs.perPage.value in PER_PAGE_VALUES
    requires reposNumber > 0
    modifies form
    ensures form.Valid()
    ensures 1 == form.pageNumber <= form.pages
    ensures form.pages == PageCount(reposNumber, refs.perPage.value)
    ensures form.results == repos
  {
    var fetch := form.OnFormSend(refs);
    var _ := form.GetApiData(Profile(reposNumber, Listing(repos)));
  }

  /** The current page can end up beyond the page count: the count shrinks on a
      later fetch and the page is never clamped. */
  method PageBeyondLastPage() returns (pageNumber: int, pages: int)
    ensures pageNumber > pages >= 1
  {
    var form := new Form();
    var fetch := form.OnFormSend(DefaultRefs("octocat", "name"));
    var repos := [Repo("hello-world", false, 1)];
    var _ := form.GetApiData(Profile(10, Listing(repos)));
    assert form.pages == 2;
    fetch := form.OnNextClick();
    assert fetch;
    var _ := form.GetApiData(Profile(3, Listing(repos)));
    pageNumber, pages := form.pageNumber, form.pages;
  }

  /** A click beyond the bounds is a no-op: on page 1, Prev sends nothing and
      changes nothing; on the last page, Next does the same. */
  method BoundaryClicksAreNoOps(reposNumber: int, repos: seq<Repo>)
    returns (prevFetch: bool, nextFetch: bool, pageNumber: int, pages: int)
    requires 0 < reposNumber <= 5
    ensures !prevFetch && !nextFetch
    ensures pageNumber == 1 && pages == 1
  {
    var form := new Form();
    var fetch := form.OnFormSend(DefaultRefs("octocat", "name"));
    var _ := form.GetApiData(Profile(reposNumber, Listing(repos)));
    prevFetch := form.OnPrevClick();
    nextFetch := form.OnNextClick();
    pageNumber, pages := form.pageNumber, form.pages;
  }
}

/** The search form controller: the selector value lists, the request tables,
    the form's instance data and the handlers that change it. The HTTP client
    is not modelled; a fetch is given to GetApiData as its outcome. */
module GithubForm {
  import opened GithubResults

  datatype Option<T> = None | Some(value: T)

  // ---------------------------------------------------------------------------
  // Selector values

  datatype AccountType = User | Organization
  datatype RepoType = All | Owner | Member
  datatype Sort =
    | Name | Created | Updated | Pushed
    | NameDesc | CreatedDesc | UpdatedDesc | PushedDesc

  const ACCOUNT_VALUES: seq<string> := ["user", "organization"]
  const REPO_VALUES: seq<string> := ["all", "owner", "member"]
  const SORT_VALUES: seq<string> :=
    ["name", "created", "updated", "pushed", "name-desc", "created-desc", "updated-desc", "pushed-desc"]
  const PER_PAGE_VALUES: seq<int> := [5, 20, 100]

  /** The option text of an account type. */
  function AccountTypeName(t: AccountType): (n: string)
    ensures n in ACCOUNT_VALUES
  {
    match t
    case User => "user"
    case Organization => "organization"
  }

  /** The membership test of the submit handler: a selected text is accepted
      exactly when it is one of the allowed values. */
  function ParseAccountType(s: string): (r: Option<AccountType>)
    ensures r.Some? <==> s in ACCOUNT_VALUES
    ensures forall t :: r == Some(t) <==> AccountTypeName(t) == s
  {
    if s == "user" then Some(User)
    else if s == "organization" then Some(Organization)
    else None
  }

  function RepoTypeName(t: RepoType): (n: string)
    ensures n in REPO_VALUES
  {
    match t
    case All => "all"
    case Owner => "owner"
    case Member => "member"
  }

  function ParseRepoType(s: string): (r: Option<RepoType>)
    ensures r.Some? <==> s in REPO_VALUES
    ensures forall t :: r == Some(t) <==> RepoTypeName(t) == s
  {
    if s == "all" then Some(All)
    else if s == "owner" then Some(Owner)
    else if s == "member" then Some(Member)
    else None
  }

  function SortName(s: Sort): (n: string)
    ensures n in SORT_VALUES
  {
    match s
    case Name => "name"
    case Created => "created"
    case Updated => "updated"
    case Pushed => "pushed"
    case NameDesc => "name-desc"
    case CreatedDesc => "created-desc"
    case UpdatedDesc => "updated-desc"
    case PushedDesc => "pushed-desc"
  }

  function ParseSort(s: string): (r: Option<Sort>)
    ensures r.Some? <==> s in SORT_VALUES
    ensures forall o :: r == Some(o) <==> SortName(o) == s
  {
    if s == "name" then Some(Name)
    else if s == "created" then Some(Created)
    else if s == "updated" then Some(Updated)
    else if s == "pushed" then Some(Pushed)
    else if s == "name-desc" then Some(NameDesc)
    else if s == "created-desc" then Some(CreatedDesc)
    else if s == "updated-desc" then Some(UpdatedDesc)
    else if s == "pushed-desc" then Some(PushedDesc)
    else None
  }

  // ---------------------------------------------------------------------------
  // Request tables

  predicate HasDescSuffix(n: string) {
    |n| >= 5 && n[|n| - 5..] == "-desc"
  }

  /** An option text without its "-desc" suffix. */
  function BaseName(n: string): string {
    if HasDescSuffix(n) then n[..|n| - 5] else n
  }

  /** The path prefix of an account type. */
  function PathPrefix(t: AccountType): string {
    match t
    case User => "users"
    case Organization => "orgs"
  }

  /** Each path prefix is one non-empty path segment, starting with the
      account type's option text's first letter. */
  lemma PathPrefixIsSegment(t: AccountType)
    ensures var p := PathPrefix(t);
      |p| > 0 && '/' !in p && p[0] == AccountTypeName(t)[0]
  {
  }

  /** The sort field sent for an option. */
  function SortField(s: Sort): string {
    match s
    case Name => "full_name"
    case NameDesc => "full_name"
    case Created => "created"
    case CreatedDesc => "created"
    case Updated => "updated"
    case UpdatedDesc => "updated"
    case Pushed => "pushed"
    case PushedDesc => "pushed"
  }

  /** The sort direction sent for an option. */
  function SortDirection(s: Sort): string {
    match s
    case Name => "asc"
    case Created => "asc"
    case Updated => "asc"
    case Pushed => "asc"
    case NameDesc => "desc"
    case CreatedDesc => "desc"
    case UpdatedDesc => "desc"
    case PushedDesc => "desc"
  }

  /** The sort field is the option's name without "-desc", except that both
      name options sort by "full_name". */
  lemma SortFieldRule(s: Sort)
    ensures SortField(s) ==
      (if BaseName(SortName(s)) == "name" then "full_name" else BaseName(SortName(s)))
  {
    var n := SortName(s);
    if HasDescSuffix(n) {
      assert n == BaseName(n) + "-desc";
    }
  }

  /** The sort direction is "desc" for the "-desc" options and "asc" for the
      others. */
  lemma SortDirectionRule(s: Sort)
    ensures SortDirection(s) == (if HasDescSuffix(SortName(s)) then "desc" else "asc")
  {
  }

  function ProfilePath(t: AccountType, accountName: string): string {
    PathPrefix(t) + "/" + accountName
  }

  function ListingPath(t: AccountType, accountName: string): string {
    ProfilePath(t, accountName) + "/repos"
  }

  /** The query parameters of the listing request: type, sort, direction,
      per_page and page. */
  datatype Params = Params(repoType: string, sort: string, direction: string, perPage: int, page: int)

  datatype Request = Request(path: string, params: Option<Params>)

  /** The profile request of an account. */
  function ProfileRequest(t: AccountType, accountName: string): Request {
    Request(ProfilePath(t, accountName), None)
  }

  /** The listing request of an account, for one page. */
  function ListingRequest(t: AccountType, accountName: string, repoType: RepoType, sort: Sort,
                          perPage: int, pageNumber: int): Request
  {
    Request(ListingPath(t, accountName),
            Some(Params(RepoTypeName(repoType), SortField(sort), SortDirection(sort), perPage, pageNumber)))
  }

  /** The profile request has no query parameters, and its path is the
      account type's prefix, a slash and the account name. */
  lemma ProfileRequestShape(t: AccountType, accountName: string)
    ensures var r := ProfileRequest(t, accountName); var k := |PathPrefix(t)| + 1;
      r.params == None &&
      |r.path| == k + |accountName| &&
      r.path[..k] == PathPrefix(t) + "/" && r.path[k..] == accountName
  {
  }

  /** The listing request's path is the profile path followed by "/repos";
      its parameters are the filter's option text, the sort field and
      direction resolved from the sort option, the page size and the page
      number. */
  lemma ListingRequestShape(t: AccountType, accountName: string, repoType: RepoType, sort: Sort,
                            perPage: int, pageNumber: int)
    ensures var r := ListingRequest(t, accountName, repoType, sort, perPage, pageNumber);
      r.path == ProfileRequest(t, accountName).path + "/repos" &&
      r.params.Some? &&
      r.params.value.repoType in REPO_VALUES &&
      r.params.value.repoType == RepoTypeName(repoType) &&
      r.params.value.direction == (if HasDescSuffix(SortName(sort)) then "desc" else "asc") &&
      r.params.value.sort ==
        (if BaseName(SortName(sort)) == "name" then "full_name" else BaseName(SortName(sort))) &&
      r.params.value.perPage == perPage && r.params.value.page == pageNumber
  {
    SortFieldRule(sort);
    SortDirectionRule(sort);
  }

  /** A profile path determines the account type and the account name, so
      each profile request names exactly one account. */
  lemma {:induction false} ProfilePathInjective(t1: AccountType, n1: string, t2: AccountType, n2: string)
    requires ProfilePath(t1, n1) == ProfilePath(t2, n2)
    ensures t1 == t2 && n1 == n2
  {
    PathPrefixIsSegment(t1);
    PathPrefixIsSegment(t2);
    var p := ProfilePath(t1, n1);
    assert p[0] == PathPrefix(t1)[0];
    assert p[0] == PathPrefix(t2)[0];
    var k := |PathPrefix(t1)| + 1;
    assert n1 == p[k..];
    assert n2 == p[k..];
  }

  /** A listing path determines the account type and the account name, so
      each listing request names exactly one account. */
  lemma {:induction false} ListingPathInjective(t1: AccountType, n1: string, t2: AccountType, n2: string)
    requires ListingPath(t1, n1) == ListingPath(t2, n2)
    ensures t1 == t2 && n1 == n2
  {
    var p := ListingPath(t1, n1);
    assert ProfilePath(t1, n1) == p[..|p| - 6];
    assert ProfilePath(t2, n2) == p[..|p| - 6];
    ProfilePathInjective(t1, n1, t2, n2);
  }

  // ---------------------------------------------------------------------------
  // Pagination

  /** The number of pages: the ceiling of reposNumber / perPage. */
  function PageCount(reposNumber: int, perPage: int): (pages: int)
    requires reposNumber > 0 && perPage > 0
    ensures pages >= 1
    ensures (pages - 1) * perPage < reposNumber <= pages * perPage
  {
    var q := (reposNumber + perPage - 1) / perPage;
    assert q * perPage + (reposNumber + perPage - 1) % perPage == reposNumber + perPage - 1;
    q
  }

  // ---------------------------------------------------------------------------
  // The component's state and handlers

  /** The input refs of the form; None is a ref that is not attached. The page
      size is the selected option's number. */
  datatype FormRefs = FormRefs(accountName: Option<string>, accountType: Option<string>,
                               repoType: Option<string>, sort: Option<string>, perPage: Option<int>)
  {
    predicate AllPresent() {
      accountName.Some? && accountType.Some? && repoType.Some? && sort.Some? && perPage.Some?
    }
  }

  /** What a fetch ends in: the profile request fails, or it gives the number
      of public repositories and then (only when that number is positive)
      the listing request fails or gives the list. */
  datatype ListingOutcome = ListingErr | Listing(repos: seq<Repo>)
  datatype FetchOutcome = ProfileErr | Profile(reposNumber: int, listing: ListingOutcome)

  /** The callbacks handed to the presenter. */
  datatype Action = PrevClick | NextClick

  class Form {
    var accountName: string
    var accountType: AccountType
    var repoType: RepoType
    var sort: Sort
    var perPage: int
    var pageNumber: int
    var pages: int
    var results: seq<Repo>

    ghost predicate Valid()
      reads this
    {
      pageNumber >= 1 && pages >= 1 && perPage in PER_PAGE_VALUES
    }

    /** What the presenter shows for the current data: the view the next
        re-render produces. */
    function Rendered(): View<Action>
      reads this
    {
      Render(results, pageNumber, pages, PrevClick, NextClick)
    }

    /** The rendered view: no data exactly when there are no results;
        otherwise the results' rows, the current counters, and the Prev and
        Next actions as the triggers' callbacks. */
    lemma RenderedShape()
      ensures var v := Rendered();
        (v.NoData? <==> results == []) &&
        (v.Table? ==>
          v.rows == Rows(results) && v.pageNumber == pageNumber && v.pages == pages &&
          v.onPrev == PrevClick && v.onNext == NextClick)
    {
    }

    /** The form's default values and an empty result list. */
    constructor ()
      ensures Valid()
      ensures accountName == ""
      ensures AccountTypeName(accountType) == ACCOUNT_VALUES[0]
      ensures RepoTypeName(repoType) == REPO_VALUES[0]
      ensures SortName(sort) == SORT_VALUES[0]
      ensures perPage == 5 && pageNumber == 1 && pages == 1
      ensures results == []
      ensures Rendered().TestId() == "id-result-no-data"
    {
      accountName := "";
      accountType := User;
      repoType := All;
      sort := Name;
      perPage := 5;
      pageNumber := 1;
      pages := 1;
      results := [];
    }

    /** The submit handler. With a ref missing, nothing happens. Otherwise the
        name and page size are taken, each selector is taken only when its
        text is an allowed value, the page goes back to 1 and a fetch is
        triggered. */
    method OnFormSend(refs: FormRefs) returns (fetch: bool)
      requires Valid()
      requires refs.perPage.Some? ==> refs.perPage.value in PER_PAGE_VALUES
      modifies this`accountName, this`accountType, this`repoType, this`sort, this`perPage, this`pageNumber
      ensures Valid()
      ensures fetch <==> refs.AllPresent()
      ensures !fetch ==> unchanged(this)
      ensures fetch ==>
        accountName == refs.accountName.value &&
        accountType == (if refs.accountType.value in ACCOUNT_VALUES
                        then ParseAccountType(refs.accountType.value).value else old(accountType)) &&
        repoType == (if refs.repoType.value in REPO_VALUES
                     then ParseRepoType(refs.repoType.value).value else old(repoType)) &&
        sort == (if refs.sort.value in SORT_VALUES
                 then ParseSort(refs.sort.value).value else old(sort)) &&
        perPage == refs.perPage.value &&
        pageNumber == 1
    {
      if !refs.AllPresent() {
        return false;
      }
      accountName := refs.accountName.value;
      var t := ParseAccountType(refs.accountType.value);
      if t.Some? { accountType := t.value; }
      var r := ParseRepoType(refs.repoType.value);
      if r.Some? { repoType := r.value; }
      var s := ParseSort(refs.sort.value);
      if s.Some? { sort := s.value; }
      perPage := refs.perPage.value;
      pageNumber := 1;
      fetch := true;
    }

    /** The Prev handler: one page back and a fetch, unless on page 1. */
    method OnPrevClick() returns (fetch: bool)
      requires Valid()
      modifies this`pageNumber
      ensures Valid()
      ensures fetch <==> old(pageNumber) > 1
      ensures pageNumber == if fetch then old(pageNumber) - 1 else old(pageNumber)
    {
      fetch := pageNumber > 1;
      if fetch {
        pageNumber := pageNumber - 1;
      }
    }

    /** The Next handler: one page on and a fetch, unless on the last page. */
    method OnNextClick() returns (fetch: bool)
      requires Valid()
      modifies this`pageNumber
      ensures Valid()
      ensures fetch <==> old(pageNumber) < pages
      ensures pageNumber == if fetch then old(pageNumber) + 1 else old(pageNumber)
      ensures fetch ==> pageNumber <= pages
    {
      fetch := pageNumber < pages;
      if fetch {
        pageNumber := pageNumber + 1;
      }
    }

    /** A click on a rendered trigger: the action the presenter was handed
        runs the matching handler. */
    method Trigger(a: Action) returns (fetch: bool)
      requires Valid()
      modifies this`pageNumber
      ensures Valid()
      ensures a == PrevClick ==>
        (fetch <==> old(pageNumber) > 1) &&
        pageNumber == (if fetch then old(pageNumber) - 1 else old(pageNumber))
      ensures a == NextClick ==>
        (fetch <==> old(pageNumber) < pages) &&
        pageNumber == (if fetch then old(pageNumber) + 1 else old(pageNumber))
    {
      match a {
        case PrevClick => fetch := OnPrevClick();
        case NextClick => fetch := OnNextClick();
      }
    }

    /** One fetch, applied atomically: the requests it sends, read from the
        current data, and the new results and page count. */
    method GetApiData(outcome: FetchOutcome) returns (requests: seq<Request>)
      requires Valid()
      modifies this`results, this`pages
      ensures Valid()
      ensures requests ==
        [ProfileRequest(accountType, accountName)] +
        (if outcome.Profile? && outcome.reposNumber > 0
         then [ListingRequest(accountType, accountName, repoType, sort, perPage, pageNumber)]
         else [])
      ensures match outcome
        case ProfileErr =>
          results == [] && pages == old(pages)
        case Profile(n, ListingErr) =>
          (if n > 0 then results == [] else results == old(results)) && pages == old(pages)
        case Profile(n, Listing(repos)) =>
          if n > 0 then results == repos && pages == PageCount(n, perPage)
          else results == old(results) && pages == old(pages)
    {
      requests := [ProfileRequest(accountType, accountName)];
      match outcome {
        case ProfileErr =>
          results := [];
        case Profile(reposNumber, listing) =>
          if reposNumber > 0 {
            requests := requests + [ListingRequest(accountType, accountName, repoType, sort, perPage, pageNumber)];
            match listing {
              case ListingErr =>
                results := [];
              case Listing(repos) =>
                pages := PageCount(reposNumber, perPage);
                results := repos;
            }
          }
      }
    }
  }
}

# GitHub repository search form — Dafny model

This project models the search-and-pagination logic of a small React
application. The user enters a GitHub account name. The user also picks an
account type (user or organization), a repository filter (all, owner,
member), a sort order (4 fields, each ascending or descending) and a page
size (5, 20 or 100). The application then:

1. fetches the account profile to learn its public repository count;
2. fetches one page of the repository listing, when that count is positive;
3. shows the page as a table with Prev / Next triggers.

Three modules: two follow the two component files, and one holds client traces.

- `GithubForm` (`github_form.dfy`) models the controller in
  `src/components/GithubForm.tsx`:
  - the allowed selector values, modelled as enumerations, and the membership
    test the submit handler applies to the selected text;
  - the `API_PAR` tables, which map an account type to a path prefix and a
    sort option to a sort field and a direction;
  - the profile and listing requests;
  - the page count, as an integer ceiling;
  - the component's instance data and results, as the class `Form`.
  `Form`'s methods are the three handlers (`OnFormSend`, `OnPrevClick`,
  `OnNextClick`, with `Trigger` dispatching the presenter's callbacks to the
  last two) and one fetch (`GetApiData`). The object invariant `Valid()`
  is `pageNumber >= 1`, `pages >= 1` and a page size from the allowed list.
  Every handler keeps it.
- `GithubResults` (`github_results.dfy`) models the presenter in
  `src/components/GithubResults.tsx`. It is a pure function from the results,
  `pageNumber` and `pages` to either the no-data view or a table view. The
  table view holds the rows, the page indicator and the two callbacks.
- `Scenarios` (`scenarios.dfy`) holds client traces over `Form`.
  `SearchShowsTable` mirrors the has-data test in
  `src/components/app.test.tsx:23-36`; the no-data first render of that file
  is the constructor's contract. `UpdatedDescRequest`, `ProfileErrorClears`,
  `SearchLandsInBounds` and `BoundaryClicksAreNoOps` exercise the handlers'
  sort resolution, profile-error, successful-search and boundary behaviour.
  `EmptyAccountKeepsStaleRows` and `PageBeyondLastPage` show where the code
  behaves differently from what one might assume.

A fetch is asynchronous in the source. Here it is split in two steps:

- a handler returns `fetch == true` when it would call `getApiData()`;
- the caller then applies `GetApiData(outcome)`. It runs as one atomic step
  and receives as a parameter the outcome of the two HTTP calls: profile
  error, or a repository count followed (when positive) by a listing error or
  a list.

`GetApiData` returns the requests the code sends: paths and listing
parameters, read from the current data.

Where the code and a plain reading of the application's intent differ, the
model follows the code:

- An account with zero public repositories leaves `results` and `pages` as
  they were. Rows from the previous search stay on screen (see
  `Scenarios.EmptyAccountKeepsStaleRows`).
- A failed listing request empties `results` but keeps the previous `pages`.
- `pageNumber <= pages` is not an invariant. `pages` can shrink on a later
  fetch and the page is never clamped (see `Scenarios.PageBeyondLastPage`).
  Only `pageNumber >= 1` holds.

## Model

| member | source | states |
|---|---|---|
| `GithubForm.AccountTypeName` | src/components/GithubForm.tsx:6 | every account type's option text is in the allowed list |
| `GithubForm.ParseAccountType` | src/components/GithubForm.tsx:134-135 | a selected text is accepted exactly when it is in `["user", "organization"]`, and then it gives the one account type with that name |
| `GithubForm.RepoTypeName` | src/components/GithubForm.tsx:7 | every repository filter's option text is in the allowed list |
| `GithubForm.ParseRepoType` | src/components/GithubForm.tsx:137-138 | a selected text is accepted exactly when it is in `["all", "owner", "member"]`, and then it gives the one filter with that name |
| `GithubForm.SortName` | src/components/GithubForm.tsx:8-17 | every sort option's text is in the allowed list of 8 values |
| `GithubForm.ParseSort` | src/components/GithubForm.tsx:140-141 | a selected text is accepted exactly when it is one of the 8 sort values, and then it gives the one option with that name |
| `GithubForm.SortFieldRule` | src/components/GithubForm.tsx:24-33 | the field sent is the option's name with any "-desc" suffix removed, except that `name` and `name-desc` both send `full_name` |
| `GithubForm.SortDirectionRule` | src/components/GithubForm.tsx:34-43 | the direction sent is `desc` exactly for the options whose name ends in "-desc", and `asc` for the others |
| `GithubForm.PathPrefixIsSegment` | src/components/GithubForm.tsx:20-23 | `PathPrefix` is user → `users`, organization → `orgs` by definition; each prefix is one non-empty path segment (no `/`) starting with the account type's first letter |
| `GithubForm.ProfileRequestShape` | src/components/GithubForm.tsx:90-92 | `ProfileRequest`, the profile request, has no query parameters, and its path is the account type's prefix, a slash, then the account name unchanged |
| `GithubForm.ListingRequestShape` | src/components/GithubForm.tsx:96-106 | `ListingRequest`, the listing request, has the profile path followed by `/repos`; its parameters are the filter's option text (`type`), the sort field and direction resolved by the sort rules, `per_page` and `page` as given |
| `GithubForm.ProfilePathInjective` | src/components/GithubForm.tsx:90-91 | the profile path `prefix/accountName` (prefix `users` or `orgs`) determines the account type and the account name, so each profile request names exactly one account |
| `GithubForm.ListingPathInjective` | src/components/GithubForm.tsx:104-105 | the listing path `prefix/accountName/repos` determines the account type and the account name, so each listing request names exactly one account |
| `GithubForm.PageCount` | src/components/GithubForm.tsx:108 | the page count is the ceiling of reposNumber / perPage: the least `pages` with `pages * perPage >= reposNumber`; it is at least 1 |
| `GithubForm.Form.constructor` | src/components/GithubForm.tsx:66-86 | the defaults are `""`, the first account type, filter and sort values, page size 5, page 1 of 1, and no results; the first render is the no-data view |
| `GithubForm.Form.OnFormSend` | src/components/GithubForm.tsx:122-146 | with a ref missing, nothing changes and no fetch is triggered; otherwise the name and page size are taken, each selector only when its text is allowed (else the old value stays), the page becomes 1 and a fetch is triggered; results and pages are untouched |
| `GithubForm.Form.OnPrevClick` | src/components/GithubForm.tsx:148-153 | when the page is above 1 it goes down by one and a fetch is triggered; otherwise nothing changes and no fetch is triggered |
| `GithubForm.Form.OnNextClick` | src/components/GithubForm.tsx:155-160 | when the page is below `pages` it goes up by one (and stays within `pages`) and a fetch is triggered; otherwise nothing changes and no fetch is triggered |
| `GithubForm.Form.RenderedShape` | src/components/GithubForm.tsx:241-247 | `Rendered`, the presenter called with the form's results, `pageNumber` and `pages`, is the no-data view exactly when there are no results, and otherwise has the results' rows, those counters, and the Prev and Next actions as the triggers' callbacks |
| `GithubForm.Form.Trigger` | src/components/GithubForm.tsx:241-247 | the `PrevClick` and `NextClick` actions handed to the presenter run `OnPrevClick` and `OnNextClick`: same fetch condition and same page step as those handlers |
| `GithubForm.Form.GetApiData` | src/components/GithubForm.tsx:88-120 | the profile request is always sent; the listing request, carrying repoType, the resolved sort field and direction, perPage and pageNumber, is sent exactly when the count is positive; profile error or listing error empties results and keeps pages; a zero count changes nothing; success sets results to the list and pages to the page count; `pageNumber >= 1` is kept |
| `GithubResults.Rows` | src/components/GithubResults.tsx:36-42 | one row per result, in the order received; row i shows result i's name and size unchanged, and "yes" when it is private and "no" otherwise |
| `GithubResults.Render` | src/components/GithubResults.tsx:17-73 | the no-data view (test id `id-result-no-data`) exactly when results are empty; otherwise the has-data table (test id `id-result-has-data`) with those rows, the indicator showing pageNumber and pages as given, and the Prev / Next triggers carrying the given callbacks unchanged |
| `Scenarios.SearchShowsTable` | src/components/app.test.tsx:23-36 | submitting "thomasjohn" with the default selectors, for an account whose listing returns rows, renders the has-data table |
| `Scenarios.UpdatedDescRequest` | src/components/GithubForm.tsx:96-106 | selecting "updated-desc" sends `users/thomasjohn/repos` with type `all`, sort `updated`, direction `desc`, per_page 5, page 1 |
| `Scenarios.ProfileErrorClears` | src/components/GithubForm.tsx:116-119 | after any complete submission whose profile request fails, even following a successful search on page 2, results are empty, the page is 1 and the no-data view shows |
| `Scenarios.EmptyAccountKeepsStaleRows` | src/components/GithubForm.tsx:95 | a search for an account with zero repositories sends only the profile request and leaves the previous search's rows on screen |
| `Scenarios.SearchLandsInBounds` | src/components/GithubForm.tsx:122-146 | from any valid state, a complete submission followed by a successful fetch for an account with repositories gives page 1 within the new page count (the ceiling of the count over the submitted page size), and the returned list as results |
| `Scenarios.PageBeyondLastPage` | src/components/GithubForm.tsx:108-109 | a trace of submit, fetch, Next, fetch ends with `pageNumber > pages`: the page is not clamped when the count shrinks |
| `Scenarios.BoundaryClicksAreNoOps` | src/components/GithubForm.tsx:148-160 | with a single page, Prev and Next both trigger no fetch and leave page 1 of 1 |

## Left out

- The HTTP client (`api` in `src/api/api`) is not part of this model. Each fetch is an input outcome, and the requests are returned as values.
- `async`/`await` and overlapping fetches are not modelled. In the source, the data is read at several points between the two awaits, and a later fetch may finish first. Here each fetch is one atomic step that reads the data once.
- React plumbing is not modelled: `useRef`/`useState`, re-rendering, JSX markup, CSS classes and option lists. Input refs are `Option` values, and a render is the `View` datatype. `Form.Rendered()` is what the next re-render would show. The source re-renders only when `setResults` runs (src/components/GithubForm.tsx:110, 113, 118), so between a handler and its fetch, and after a zero-count fetch, the screen can still show the previous page number.
- The `Number(...)` conversion of the page-size text is not modelled. The ref gives an integer, and `OnFormSend` requires it to be one of 5, 20 and 100, the only options the selector offers.
- `Math.ceil` on a floating-point quotient becomes an integer ceiling division. The two agree for the positive integers involved.
- The `console.log` diagnostics on the two error paths are not modelled.
- `private` is typed as a string in the presenter's props, but the listing returns a boolean. It is modelled as a `bool`, and the "yes"/"no" choice is its truth value.
- `src/components/App.tsx` only composes a title and the form and has no logic.

# Person list: a Dafny model of the list view and the person form

This project models the client-side logic of a small browser CRUD front end for "person" records
(id, name, last name, address, gender, phone number) kept by a REST service at `/persons`. There are
two components:

- **The list view** (`src/PersonList.js`). It holds the fetched records, a free-text filter and a current
  page, and shows four records per page. The page-number window is at most five wide, with ellipses on
  either side. It also has Prev/Next buttons, a modal for adding or viewing a record, a delete action and
  a status banner.
- **The person form** (`src/PersonForm.js`). It is rendered in the list view's modal and edits a
  six-field record. On submit it sends a PUT for the selected person, or a POST when no one is selected.
  It then asks the list view to refetch, sets the banner and closes the modal.

Modules, one concept each:

- `Text`: lower-casing (ASCII) and substring search (`includes`).
- `People`: the `Person` record, the filter predicate (some truthy field, lowered, contains the lowered
  query), the filter itself and `find` by id.
- `Paging`: `Array.prototype.slice`, the current page's items, `Math.ceil(n / 4)`, the `pageNumbers`
  loop, the five-wide window, the ellipses and Prev/Next disabling. `Paginate` gathers the render-time
  derivations.
- `PersonListView`: the list component as a class. Its fields are the component's state. Its methods
  are the handlers, each with a field-level `modifies` frame, so a handler can change only the fields it
  lists.
- `PersonFormView`: the form component as a class. It holds a reference to the list view that renders
  it. Its `selectedPerson` prop is the host's `selectedPersonDetails`, and its `fetchData`, `closeModal`
  and `setAlert` are the host's.

How HTTP requests are modelled:

- Each component logs the requests it sends in a `requests` field.
- How an awaited call turns out is an input of the handler: `Response<T> = Ok(body) | Failed`.
- For the list endpoint, `ListBody` says whether `persons` was an array.

Behaviours kept as the code has them, although they look unintended:

- **Next stays enabled with no matches.** With zero matching records `totalPages` is 0, so on page 1
  Next is enabled (`1 !== 0`). Clicking it moves to page 2 (`Paging.Paginate`,
  `PersonListView.PersonList.ClickNext`).
- **`closeModal` keeps add mode.** `closeModal` does not reset `isAddingMode`, and the form is given
  `closeModal`, not `closeAddModal`. So a submission from the add modal leaves add mode on
  (`PersonFormView.PersonForm.HandleSubmit`). Only the modal's own hide action turns add mode off
  (`PersonListView.PersonList.HideModal`).
- **A failed refresh keeps the old list.** `people` is left unchanged, because `setPeople` is never
  reached.
- **The page is never clamped from above.** When the list shrinks, `currentPage` is not clamped. The
  model's only invariant on it (`Valid`) is `currentPage >= 1`, which every navigation handler except the
  raw `HandlePageChange` preserves.

Two more facts about the code:

- **A failed refresh does not empty the list.** It leaves `people` unchanged and does not substitute
  `[]`; only the returned value is `[]` (`src/PersonList.js:28-30`).
- **An empty query is not a pass-through.** It drops the records whose every field is falsy
  (`People.EmptyQueryFilter`).

## Model

| member | source | states |
|---|---|---|
| `Text.LowerChar` | src/PersonList.js:46 | an upper-case ASCII letter becomes its lower-case letter; any other character is kept; the result is never upper-case |
| `Text.Lower` | src/PersonList.js:46 | `toLowerCase` keeps the length and lowers each character in place |
| `Text.LowerIdempotent` | src/PersonList.js:46 | lowering an already-lowered string changes nothing |
| `Text.OccursInTail` | src/PersonList.js:46 | an occurrence at index i of the string's tail is an occurrence at i+1 of the whole string |
| `Text.Includes` | src/PersonList.js:46 | `includes` is true exactly when the query occurs at some index of the string (always for the empty query) |
| `People.SomeValueMatches` | src/PersonList.js:43-47 | `.some` is true exactly when some value is truthy and its lowered form contains the lowered query |
| `People.Values` | src/PersonList.js:43 | `Object.values` of a record: its six fields, the id first, in key order (id, name, lastName, address, gender, phoneNumber) |
| `People.Truthy` | src/PersonList.js:45 | a field is truthy iff it is non-empty; its use is proved in `EmptyQueryMatches` and `EmptyQueryFilter` |
| `People.ValueMatches` | src/PersonList.js:45-46 | the `.some` callback (truthy and, lowered, containing the lowered query) holds only for a value at least as long as the query |
| `People.Matches` | src/PersonList.js:42-47 | the filter callback holds only for a record with some truthy field, so a record whose fields are all falsy is never listed |
| `People.FilterPeople` | src/PersonList.js:42-48 | the filtered list is an order-preserving subsequence of `people`; a record is in it iff it is in `people` and matches; no matches give `[]` |
| `People.FilterConcat` | src/PersonList.js:42-48 | filtering `a + b` is filtering `a` followed by filtering `b`; this fixes the result, duplicates and order included |
| `People.FilterSingle` | src/PersonList.js:42-48 | a one-record list is kept exactly when the record matches |
| `People.EmptyQueryMatches` | src/PersonList.js:42-48 | the empty query matches a record iff it has a truthy field |
| `People.EmptyQueryFilter` | src/PersonList.js:42-48 | with the empty filter, exactly the records with a truthy field are kept; all of `people` when every record has one |
| `People.QueryCaseIgnored` | src/PersonList.js:46 | a query matches the same records as its lower-case form |
| `People.UpperCaseQueryMatchesGender` | src/PersonList.js:46 | the query "MASCULINO" matches any record whose gender is "Masculino" |
| `People.FindById` | src/PersonList.js:109 | `find` gives none iff no item has the id; otherwise the first item with that id |
| `Paging.SliceIndex` | src/PersonList.js:49-52 | a slice index is clipped to the length, and a negative one counts from the end |
| `Paging.JsSlice` | src/PersonList.js:49-52 | for a non-negative start the slice is `s[start..min(end, len)]`; it is empty when the end does not exceed the start |
| `Paging.CurrentItems` | src/PersonList.js:40-52 | for page p >= 1 the rows are `filtered[(p-1)*4 .. min(p*4, n))`; at most 4; empty once `(p-1)*4 >= n` |
| `Paging.TotalPages` | src/PersonList.js:54 | `ceil(n/4)`: the pages hold all n items; one page fewer would not when n > 0; zero pages iff n = 0 |
| `Paging.Range` | src/PersonList.js:55-58 | the run lo..hi has `hi-lo+1` elements (none when lo > hi), and element k is `lo+k` |
| `Paging.ItemPage` | src/PersonList.js:40-54 | item i of the filtered list is row `i%4` of page `i/4+1`, and that page is between 1 and `totalPages` |
| `Paging.PageNumbers` | src/PersonList.js:55-58 | the loop builds exactly `[1, 2, ..., totalPages]` |
| `Paging.StartPage` | src/PersonList.js:60 | `startPage` is at least 1 and at least p-2, and equals one of them (the larger) |
| `Paging.EndPage` | src/PersonList.js:61 | `endPage` is at most `totalPages` and at most `startPage+4`, and equals one of them (the smaller) |
| `Paging.WindowIsRun` | src/PersonList.js:223 | `pageNumbers.slice(startPage-1, endPage)` is exactly the run `startPage..endPage` |
| `Paging.WindowProperties` | src/PersonList.js:60-63 | the window holds at most 5 consecutive ascending existing pages, including the current page when it exists; while the current page exists, the leading (trailing) ellipsis shows iff page 1 (the last page) is not shown; past the last page `endPage` is the last page, so no trailing ellipsis, and more than four past it no button at all |
| `Paging.Paginate` | src/PersonList.js:40-63 | the render derivations: rows, `totalPages`, `startPage = max(1,p-2)`, `endPage = min(totalPages,startPage+4)`, window and ellipsis properties; the leading ellipsis iff `startPage > 1` (p > 3), the trailing iff `endPage < totalPages`, never past the last page; Prev off iff p = 1; Next off iff p = `totalPages`; with no matches on page 1, Next stays on |
| `PersonListView.PersonList.constructor` | src/PersonList.js:9-19 | the initial state: no people, loading, page 1, empty filter, modal closed, nothing selected, no add mode, no banner |
| `PersonListView.PersonList.FilteredList` | src/PersonList.js:42-48 | a record is in the filtered list iff it is in `people` and matches the current filter |
| `PersonListView.PersonList.CurrentItems` | src/PersonList.js:49-52 | the current rows number at most 4 and are matching records from `people` |
| `PersonListView.PersonList.TotalPages` | src/PersonList.js:54 | the page count of the current filter is zero exactly when nothing matches, and the pages hold every match |
| `PersonListView.PersonList.PageButtons` | src/PersonList.js:223 | the rendered buttons number at most 5, are consecutive ascending existing pages, and include the current page when it exists |
| `PersonListView.PersonList.FetchData` | src/PersonList.js:21-34 | one GET; on success `people` becomes `persons` if it is an array, else `[]`, and that list is returned; on failure `people` is unchanged and `[]` is returned; `loading` ends false |
| `PersonListView.PersonList.HandlePageChange` | src/PersonList.js:67-69 | sets `currentPage` to the argument and changes nothing else |
| `PersonListView.PersonList.HandleFilterChange` | src/PersonList.js:70-73 | sets `filter` to the input and `currentPage` to 1, nothing else |
| `PersonListView.PersonList.ClickPrev` | src/PersonList.js:213-216 | disabled on page 1; otherwise moves back one page; keeps the page >= 1, and from an existing page lands on an existing page |
| `PersonListView.PersonList.ClickNext` | src/PersonList.js:238-241 | disabled only when `currentPage == totalPages`; otherwise moves forward one page; from an existing page lands on an existing page; with no matches page 1 goes to page 2 |
| `PersonListView.PersonList.ClickPageNumber` | src/PersonList.js:223-231 | a rendered page button sets `currentPage` to its number, which is >= 1 |
| `PersonListView.PersonList.OpenModal` | src/PersonList.js:75 | shows the modal and changes nothing else |
| `PersonListView.PersonList.CloseModal` | src/PersonList.js:77-80 | hides the modal and clears the selected record; `isAddingMode` is left as it was |
| `PersonListView.PersonList.OpenAddModal` | src/PersonList.js:82-85 | turns add mode on and shows the modal |
| `PersonListView.PersonList.CloseAddModal` | src/PersonList.js:87-90 | turns add mode off, hides the modal and clears the selected record |
| `PersonListView.PersonList.HideModal` | src/PersonList.js:115 | the modal's `onHide` runs `closeAddModal` in add mode and `closeModal` otherwise; either way add mode ends off, the modal is hidden and the selection cleared |
| `PersonListView.PersonList.ShowAlert` | src/PersonList.js:92-95 | sets the banner to the given variant and message |
| `PersonListView.PersonList.DismissAlert` | src/PersonList.js:134 | the banner's close button clears it |
| `PersonListView.PersonList.HandleDelete` | src/PersonList.js:97-106 | one DELETE for the id; only on success a refetch (GET) and the success banner; on failure the danger banner, with `people` and `loading` unchanged and no refetch |
| `PersonListView.PersonList.HandleView` | src/PersonList.js:108-113 | selects the first current-page row with the id (none if absent), sets `selectedId`, opens the modal |
| `PersonFormView.WithField` | src/PersonForm.js:31-33 | the named field gets the new value; the id and every other field are unchanged |
| `PersonFormView.FieldValue` | src/PersonForm.js:31-32 | the field an input name addresses is one of the five editable fields, never the id |
| `PersonFormView.OrEmpty` | src/PersonForm.js:20-25 | the or-empty default gives '' for a falsy value, and under the string encoding returns the value unchanged |
| `PersonFormView.InitialFormData` | src/PersonForm.js:6-13 | the initial record has the selected person's six fields, or all six empty when no one is selected |
| `PersonFormView.Repopulated` | src/PersonForm.js:17-28 | each field is the person's field, or '' where that field is falsy; since a falsy field is already '' here, the result is the person itself |
| `PersonFormView.RepopulatedIsInitial` | src/PersonForm.js:6-28 | repopulating from a selected person gives the record the form is initialised with |
| `PersonFormView.SubmitRequest` | src/PersonForm.js:41-45 | a PUT addressed by the selected person's id iff a person is selected, a POST otherwise; the body is the form record |
| `PersonFormView.PersonForm.constructor` | src/PersonForm.js:5-15 | the form starts with the initial record for the host's selection, not loading |
| `PersonFormView.PersonForm.SelectedPersonChanged` | src/PersonForm.js:17-28 | with a selected person the record is repopulated from it; with none the record is unchanged |
| `PersonFormView.PersonForm.HandleChange` | src/PersonForm.js:31-33 | replaces exactly the named field of the record |
| `PersonFormView.PersonForm.HandleClear` | src/PersonForm.js:65-74 | empties all six fields, so clearing twice is the same as clearing once |
| `PersonFormView.PersonForm.HandleSubmit` | src/PersonForm.js:35-64 | exactly one request (PUT or POST). On success: a host refetch, the record emptied, the success banner. On failure: the danger banner, with the record, host list and host loading unchanged. Always: `loading` ends false and the host's `closeModal` runs, with add mode unchanged |

## Left out

- HTTP transport, URLs, request bodies on the wire, `console.error` logging: requests are recorded as
  `Request` values and their outcomes are inputs.
- Async ordering: `fetchData` is modelled as finishing where it is called. The source does not await it
  after a delete or a submit. The other state changes it races with touch disjoint fields, except
  `loading`.
- The five-second banner expiry (`setTimeout`) and its stale-timer race: `ShowAlert` only sets the
  banner.
- The mount-time `useEffect` fetch: it is a plain `FetchData` call.
- Rendering: JSX, react-bootstrap components, icons, the spinner, row highlighting and modal titles.
  Also the browser's `required` and `type="number"` input checks, and whether the modal unmounts the form
  when hidden.
- Text.Lower: models `toLowerCase` as ASCII lowering only. Unicode case mapping (for example of "É") is
  not modelled.
- People.Person: every field is its string rendering, and only `''` is falsy. So a numeric id 0,
  falsy in JS, counts here as the truthy "0". Non-string values that `toString` would render differently
  are not modelled.
- PersonFormView.Repopulated: since falsy fields are already `''`, `value || ''` is the identity here.
  Repopulation therefore equals initialisation (`RepopulatedIsInitial`). The source's distinction for
  `null` or `undefined` fields is not modelled.
- PersonFormView.FieldName: `handleChange` can only name the five inputs the form renders, not `id`.
- `src/App.js` is not part of this model: it is layout plus an unused GET wrapper.

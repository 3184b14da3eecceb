# wp-libs front-end utilities, modelled in Dafny

The plugin's admin UI has three small JavaScript utilities with real decision
logic, and this project models them:

- **Paginator** (`js/pagination.js`). It computes the window of page numbers
  and `'...'` markers to render. It also guards its navigation handlers, which
  emit `page-changed` or `per-page`. Two template rules come with it: the page
  list is shown only when there is more than one page, and the per-page button
  reads "all" above 100 per page.
- **Dropdown** (`js/dropdown.js`). It builds an index (`valueMap`) from item
  keys to items when the component is created. It projects an item's label and
  value, looks up the selected label, emits the selection events and computes
  the badge classes. One template rule comes with it: the control is shown only
  for lists of more than one item.
- **Request client** (`js/request.js`). A call stamps `action` and `nonce` into
  the caller's payload object and builds the fetch options and URL. The network
  outcome is then turned into the value the returned promise resolves to: the
  parsed body, the error envelope `{success:false, results:[], message, status}`
  or `{success:false, message:'Network error'}`.

Files:

- `wrappers.dfy`: module `Wrappers`, the `Option` datatype.
- `pagination.dfy`: module `Pagination`.
- `dropdown.dfy`: module `Dropdown`. The component's state is modelled by
  `class Dropdown`: props plus the `valueMap` field.
- `request.dfy`: module `HttpRequest`, with `class Request` and the caller's
  `class Payload`.

How the source's form is kept:

- `visiblePages` pushes entries in two loops. `Pagination.VisiblePages` is a
  method with those loops, proved equal to the function `Pagination.Window`.
  The lemmas about the window are stated of `Window`.
- `indexList` resets a field and fills it in a loop. `Dropdown.Dropdown.IndexList`
  reassigns the `valueMap` map field in a `for` loop, proved equal to the
  function `Dropdown.Index`.
- `request` updates the caller's payload object in place.
  `HttpRequest.Request.Send` modifies a `Payload` object. The response handling
  is the total function `HttpRequest.Classify`. That function includes the final
  `catch`, so "the promise never rejects" holds by construction.
- An emitted event is a returned value. An empty `Option` means nothing is
  emitted.

Points of the code's behaviour that the model keeps:

- The component indexes only in the `created` hook (js/dropdown.js:25-27) and
  has no watcher, so `Dropdown.Dropdown.SetProps` replaces every prop and keeps
  `valueMap` as it was, even when the list or `valueKey` changes.
- A GET payload is dropped (js/request.js:26-28). `Send` and `Get` attach no
  body for GET, and the URL carries no query string.
- The rule "'...' follows page 1 iff `max(2, current-2) > 2`" holds only for a
  current page in `[1, total]` (`EllipsisPlacement`). For current page -10 of
  20 the window is `[1, '...', 20]` although the run starts at page 2
  (`OutOfRangeEllipsis`): the marker comes from the rule for the last page.
  The general shape, for any current page, is given by `WindowMembers`,
  `WindowIncreasing` and `WindowGapsMarked`.
- `data.message` is read only when the status is not 500
  (js/request.js:36). When a failed response's JSON body is `null` and the
  status is not 500, that read throws inside the `try`. The handler then falls
  back to reading the text (`ErrorMessage`, `NetworkErrorCases`).
- The model takes the result of `response.text()` as an input. Under the
  WHATWG Fetch Standard a body can be consumed only once. In a browser, a
  `text()` after a failed `json()` therefore rejects, and
  `NetworkErrorCases` shows that such a call resolves to the network-error
  envelope, not to 'Server error'.

## Model

| member | source | states |
|---|---|---|
| `Pagination.VisiblePages` | js/pagination.js:12-31 | The entries pushed by the two loops are exactly `Window(current, total)`: every page when `total <= 5`; otherwise page 1, an optional '...', pages `max(2,cur-2)..min(total-1,cur+2)`, an optional '...', and the last page |
| `Pagination.SmallWindow` | js/pagination.js:18-19 | With at most five pages the window is `[1, 2, …, total]` with no '...', and it is empty when `total <= 0` |
| `Pagination.LongWindowEnds` | js/pagination.js:20-29 | With more than five pages the window starts with page 1, ends with page `total` and has between 3 and 9 entries |
| `Pagination.WindowLength` | js/pagination.js:18-29 | No window has more than nine entries, whatever the current page, including current pages outside `[1, total]` |
| `Pagination.EllipsisPlacement` | js/pagination.js:21-27 | For `1 <= current <= total` and `total > 5`: '...' follows page 1 iff `max(2,cur-2) > 2`, and '...' precedes the last page iff `min(total-1,cur+2) < total-1` |
| `Pagination.OutOfRangeEllipsis` | js/pagination.js:21-27 | The rule above fails outside `[1, total]`: for current -10 of 20 the start is 2, yet the window is `[1, '...', 20]` |
| `Pagination.TwentyPageExamples` | js/pagination.js:21-29 | For 20 pages, current 1, 10 and 20 give `[1,2,3,'...',20]`, `[1,'...',8,9,10,11,12,'...',20]` and `[1,'...',18,19,20]` |
| `Pagination.WindowMembers` | js/pagination.js:18-29 | For any current page, page `p` is in the window iff `1 <= p <= total` and (`total <= 5`, or `p` is 1, or `p` is `total`, or `|p - current| <= 2`) |
| `Pagination.WindowIncreasing` | js/pagination.js:21-29 | The page numbers of every window strictly increase |
| `Pagination.WindowGapsMarked` | js/pagination.js:21-29 | In every window, neighbouring pages are consecutive numbers. A '...' is never first, last or next to another '...', and it always stands between pages at least two apart |
| `Pagination.GoToPage` | js/pagination.js:34-37 | Emits nothing iff the clicked entry is '...' or the current page; otherwise it emits `page-changed` with the clicked page, which differs from the current one |
| `Pagination.PrevPage` | js/pagination.js:39-44 | Emits something iff the current page is above 1, and then it is `page-changed` with the page before it |
| `Pagination.NextPage` | js/pagination.js:45-50 | Emits something iff the current page is below `totalPages`, and then it is `page-changed` with the page after it |
| `Pagination.ClickWindowEntry` | js/pagination.js:34-37 | For any current page, clicking a window entry emits nothing iff the entry is '...' or the current page. Otherwise it emits `page-changed` with that page, which is in `[1, total]` |
| `Pagination.NavigationInRange` | js/pagination.js:39-50 | For a current page in `[1, total]`, Prev emits nothing exactly on page 1 and Next emits nothing exactly on the last page. Any page they emit is in `[1, total]` |
| `Pagination.PrevNextInverse` | js/pagination.js:39-50 | Prev followed by Next, and Next followed by Prev, return to the page started from |
| `Pagination.OnPerPage` | js/pagination.js:51-54 | Emits `per-page` with the count when it is truthy and with 20 when it is 0 or undefined; the emitted count is never falsy |
| `Pagination.ShowPaginator` | templates/part/pagination.php:19 | The page list is shown iff page 1 has a next page, that is iff there is more than one page |
| `Pagination.ShownIffSeveralEntries` | templates/part/pagination.php:19 | Whatever the current page, the page list is shown exactly when its window has more than one entry |
| `Pagination.Label` | templates/part/pagination.php:10 | The per-page button reads 'all' iff more than 100 are shown per page; otherwise it reads the count itself, which is then at most 100 |
| `Pagination.ShownIffNavigable` | templates/part/pagination.php:19 | For `1 <= current <= max(total, 1)`, the page list (shown iff `totalPages > 1`) is shown exactly when Prev or Next would emit something |
| `Pagination.PerPageMenu` | templates/part/pagination.php:10-16 | Each menu count, once emitted and shown as `perPage`, labels the button with its own number. The exception is 1000, which reads 'all' because it is above 100. An undefined count labels it 20 |
| `Dropdown.Dropdown.IndexList` | js/dropdown.js:29-35 | The map is reset and then equals `Index(list, valueKey)`: each item is filed under its `valueKey` field (a record) or under itself (a primitive), in list order. If the map already was that index, the call leaves it unchanged (idempotent) |
| `Dropdown.Dropdown.constructor` | js/dropdown.js:25-27 | Creating the component stores its props and indexes the list |
| `Dropdown.Dropdown.WithDefaults` | js/dropdown.js:10-17 | The defaults are labelKey 'value', valueKey 'id', placeholder 'Select an option', no badge and a null model value, and the list is indexed |
| `Dropdown.Dropdown.SetProps` | js/dropdown.js:10-27 | New props from the parent replace all six props and leave `valueMap` as it was: there is no re-indexing |
| `Dropdown.IndexKeys` | js/dropdown.js:31-34 | A key is in the index iff some item of the list has that key |
| `Dropdown.IndexLastWriteWins` | js/dropdown.js:31-34 | A key maps to the last item of the list that carries it |
| `Dropdown.IndexEntriesFromList` | js/dropdown.js:31-34 | Every entry of the index is an item of the list filed under its own key |
| `Dropdown.IndexRoundTrip` | js/dropdown.js:31-34 | For a list with distinct keys, looking up `getItemValue(item)` gives `item` back, for every item |
| `Dropdown.IndexSize` | js/dropdown.js:29-35 | For a list with distinct keys, the index has exactly one entry per item |
| `Dropdown.ShowDropdown` | templates/part/dropdown.php:8 | The control is shown iff the list has a first item and at least one more |
| `Dropdown.ShownIffChoice` | templates/part/dropdown.php:8 | For distinct keys, the control (shown iff the list has more than one item) is shown exactly when the index offers more than one choice |
| `Dropdown.Dropdown.GetItemLabel` | js/dropdown.js:36-38 | The label is the item itself for a primitive. For a record it is its `labelKey` field, or `undefined` when the record has none |
| `Dropdown.Dropdown.GetItemValue` | js/dropdown.js:39-41 | The value is the item itself for a primitive and its `valueKey` field for a record; it is the key the index files the item under |
| `Dropdown.Dropdown.GetItemKey` | js/dropdown.js:42-44 | The row key equals the item's value |
| `Dropdown.Dropdown.SelectedLabel` | js/dropdown.js:20-23 | `null` iff `modelValue` has no entry in the map or the entry is a falsy primitive. Otherwise it is the label projection of the mapped item |
| `Dropdown.Dropdown.SelectThenDisplay` | js/dropdown.js:20-23 | Say the index is built from a list with distinct keys, and the value emitted by selecting an item comes back as `modelValue`. Then the selected label is that item's label, or `null` for a falsy primitive |
| `Dropdown.Dropdown.SelectItem` | js/dropdown.js:45-48 | Emits `update:modelValue` and then `status-changed`, both carrying the item's value |
| `Dropdown.Dropdown.GetColor` | js/dropdown.js:49-51 | `'badge me-2 bg-' + color` for a record with a truthy `color`, and `''` otherwise |
| `Dropdown.Dropdown.GetButtonClass` | js/dropdown.js:52-61 | Nothing iff badges are off |
| `Dropdown.Dropdown.ButtonMatchesMenuBadge` | js/dropdown.js:49-61 | With badges on, the button reads `'badge bg-' + c` when the selected item's menu badge is `'badge me-2 bg-' + c`. It reads `'badge bg-primary'` when nothing is selected or the item has no colour |
| `HttpRequest.Request.constructor` | js/request.js:3-8 | The client keeps the configured URLs and both nonces |
| `HttpRequest.Request.Send` | js/request.js:10-53 | Sets `action` and `nonce` in the caller's payload and keeps every other key. Every request gets the JSON content type and `X-WP-Nonce` headers and goes to `baseUrl + '/' + endpoint`. A body equal to the stamped payload is attached iff the method is POST, PUT or DELETE. The method defaults to POST, and the call resolves to `Envelope(Classify(outcome))` |
| `HttpRequest.Request.Get` | js/request.js:55-57 | A GET call to `baseUrl + '/' + endpoint` with the JSON and nonce headers and no body; the payload is stamped and the call resolves to `Envelope(Classify(outcome))` |
| `HttpRequest.Request.Post` | js/request.js:59-61 | A POST call to `baseUrl + '/' + endpoint` with the JSON and nonce headers, whose body is the stamped payload; it resolves to `Envelope(Classify(outcome))` |
| `HttpRequest.Request.Put` | js/request.js:63-65 | A PUT call to `baseUrl + '/' + endpoint` with the JSON and nonce headers, whose body is the stamped payload; it resolves to `Envelope(Classify(outcome))` |
| `HttpRequest.Request.Delete` | js/request.js:67-69 | A DELETE call to `baseUrl + '/' + endpoint` with the JSON and nonce headers, whose body is the stamped payload; it resolves to `Envelope(Classify(outcome))` |
| `HttpRequest.StampKeepsOtherKeys` | js/request.js:11-12 | After stamping, `action` is the endpoint and `nonce` the configured nonce, every other key keeps its value, and only those two keys can be added |
| `HttpRequest.Classify` | js/request.js:31-52 | A transport failure gives the network error. Success is reported iff the response is ok and its body parses, and then it is that body unchanged. An error envelope carries the response's own status and occurs only for non-ok responses |
| `HttpRequest.Envelope` | js/request.js:44-51 | Everything but a parsed body is an object with `success: false`. The error envelope has exactly the keys success, results, message and status; the network-error envelope has exactly success and message |
| `HttpRequest.ErrorMessage` | js/request.js:32-38 | A status of 500 gives 'Server error' without reading the body. Otherwise the read throws (no message) exactly when the body is `null`; a message other than 'Server error' is the body's own `message` member, which is used whenever it is truthy; any message given is truthy |
| `HttpRequest.ServerErrorMessage` | js/request.js:32-38 | A failed response's message is `data.message` when the body parses to an object with a truthy `message` and the status is not 500, and 'Server error' otherwise |
| `HttpRequest.ReadableErrorResolves` | js/request.js:32-44 | A failed response resolves to exactly `{success:false, results:[], message, status}` when its text can be read, or when its body parses to something other than `null`, or when its status is 500 and its body parses |
| `HttpRequest.NetworkErrorCases` | js/request.js:40-52 | The call resolves to the network error exactly in three cases: no response; an ok body that does not parse; or a failed response whose message read threw (body unparsable, or `null` under a status other than 500) and whose text read fails |
| `HttpRequest.NonJsonServerError` | js/request.js:32-44 | A 500 with a readable non-JSON body resolves to `{success:false, results:[], message:'Server error', status:500}` |
| `HttpRequest.TransportFailureEnvelope` | js/request.js:49-52 | No response resolves to `{success:false, message:'Network error'}` |

## Left out

- Fetch, promises and the order of asynchronous steps. The network outcome,
  including what `response.json()` and `response.text()` produce, is an input
  to `Send`.
- The `console.error` logging in js/request.js:41, 43 and 50.
- JSON serialisation. The body is the stamped payload's value, `JObj(fields)`,
  not its serialised text. Being a value, it is already unaffected by the
  caller's later changes to the payload, as the serialised text is.
- The default `payload = {}` of `request` and the wrappers. The caller always
  passes a `Payload` object. The default method POST is modelled.
- `ajaxUrl` is stored by the constructor but never used by the source.
- Numbers are integers. NaN, fractional and non-finite page numbers, counts
  and statuses are not modelled, nor is JavaScript's formatting of them.
- `Dropdown.Dropdown.GetButtonClass`: its contract says only when it returns
  nothing. Which class it returns is stated by `ButtonMatchesMenuBadge`.
- Key coercion: JavaScript converts every `valueMap` key to a string, so `1`
  and `'1'` share an entry there. Here keys are `Scalar` values compared as
  they are, in `Index`, `IndexList` and `SelectedLabel`.
- `Dropdown.Dropdown.SelectedLabel`: `valueMap` is a plain JavaScript object,
  so a `modelValue` such as `'toString'` finds an inherited prototype member
  there, and the label is then that member (a function) instead of `null`. The
  model's map holds only the entries `indexList` wrote.
- `Dropdown.IndexKeys`: writing the key `'__proto__'` into a plain object
  adds no entry in JavaScript (a record item becomes the object's prototype, a
  primitive item is ignored). The model files it like any other key.
- A `null` item in the dropdown list makes `indexList` (and the projections)
  throw. The model excludes it by the precondition `NoNullItems` instead of
  modelling the exception.
- Vue reactivity, the `window.wplibs` registry, DOM events and
  `event.preventDefault()`. An emit is a returned value.
- Template markup beyond the visibility rules and the per-page label. This
  includes the placeholder fallback and the `disabled` attributes.
- The PHP side (controllers, router, exception handler, template loader). It
  is WordPress glue, and src/Kernel/Http/Router.php,
  src/Controllers/AppController.php and the other PHP sources are not part of
  this model.

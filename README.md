# Drivers: a verified model of the tool server and the carousel widget

The Drivers server offers a catalog of drivers to an agent host over JSON-RPC 2.0.
The host can list and call three tools: `search_drivers`, `list_all_drivers` and `get_driver_details`.
Tools that declare the widget template open the widget on their result.
The widget is a carousel that shows one driver at a time and sends follow-up prompts back to the host.

This project models two parts of the system in Dafny and proves their contracts.

* The `/mcp` endpoint of `src/index.js`.
  - `Server.HandleToolCall` is the tool switch, with its three handlers.
  - `Server.Route` is the method switch.
  - `Server.Dispatch` wraps `Route` in the outer `catch`.
  - The catalog is a parameter: a sequence of `Catalog.Driver` records.
  - The widget bundle is a parameter too: an `Option<string>`, where `None` means the bundle failed to load.
* The widget of `web/src/component.js`.
  - `Widget.Carousel` is a class. Its one field is `currentIndex`, the source's `currentDriverIndex`.
  - Its methods are `Navigate`, `GoTo` and `RenderApp`.
  - The rest of the rendering logic is pure functions: which record is shown, the dots and counter, the stars, the availability line, and the follow-up prompts.

The JavaScript value semantics the code relies on are modelled explicitly in `JsValue`.
* `Val` is a received JSON value. It records a string exactly. Any other value is known only by its truthiness and by what `${v}` turns it into. That conversion can throw, for an object whose `toString` is not callable.
* `Completion` is a JavaScript completion: a value, or a thrown `Error` with its message.

So the following source behaviours are all modelled:
* `args?.city` is tested for truthiness.
* `=== 'ui://widget/driver-card.html'` is a strict comparison.
* `Unknown resource: ${uri}` prints `undefined` for a missing uri.
* `req.body?.id || null` turns a falsy id into `null`.

Some choices about inputs and units:
* Ratings are in tenths of a star, so 4.8 is `48`.
* The weekday, 0 (Sunday) to 6, is a parameter. It replaces `new Date().getDay()`.
* The theme is the host's `window.openai.theme`, passed as a `Val`.
* A tool's markdown text is modelled as the document it renders (`Server.Markdown`), not as a string. The model keeps which fixed notice is returned, and which records or summaries a document holds.

Behaviours of the code that the model keeps as written:
* The comment above `search_drivers` says it picks random drivers. The code takes the first three matches in catalog order.
* The code has no `contact` or `view-schedule` action. It handles only `book`, `schedule` and `details`. Every other action sends nothing.
* `__goToDriver` does not check that its index is in range, and neither does `Widget.Carousel.GoTo`.
* The index is not clamped when the list of records changes. `Widget.StaleIndexShowsFirst` proves what such a render then shows: the first record, no active dot, and a counter that reports the stale position.

## Model

| member | source | states |
|---|---|---|
| `Ascii.IncludesIffOccurs` | src/index.js:52 | `includes` holds exactly when the needle occurs at some position of the string |
| `Catalog.Summaries` | src/index.js:109-116 | one summary per record, in catalog order; summary i holds id, name, rating, `vehicle.type`, `serviceArea.city` and hourlyRate of record i |
| `Catalog.FilterField` | src/index.js:51-53 | the filtered list is no longer than the input and holds exactly the records whose lower-cased field contains the needle |
| `Catalog.FilterFieldConcat` | src/index.js:58-60 | filtering distributes over concatenation, so it keeps catalog order |
| `Catalog.Matching` | src/index.js:50-61 | reference search: holds exactly the catalog records that pass every given filter |
| `Catalog.FiltersComposeToMatching` | src/index.js:50-61 | filtering by city and then by vehicle type equals the single-pass reference search |
| `Catalog.MatchingNothingKeepsAll` | src/index.js:50-61 | with no filter given, the search keeps every record in order |
| `Catalog.First` | src/index.js:64 | `slice(0, k)` is the prefix of length min(k, length) |
| `Catalog.FindIndex` | src/index.js:145 | returns the first position whose id matches; no earlier record matches; None exactly when no record matches |
| `Catalog.FindById` | src/index.js:144-145 | a found record is the first in the catalog whose id is the key; nothing is found exactly when the key is not a string or no id equals it |
| `Catalog.FindByIdUnique` | src/index.js:145 | with unique ids, looking up a record's id finds that record |
| `Server.WidgetDocument` | src/index.js:281-284 | the widget document begins with the root element `<div id="root"></div>`, followed by one module script whose text is the bundle, or `null` when the bundle failed to load |
| `Server.SearchDrivers` | src/index.js:45-106 | a search result has one text item; structured content is absent exactly when the text is the fixed no-match notice; the structured content holds 1 to 3 catalog records, which the text's profiles show |
| `Server.ListAllDrivers` | src/index.js:108-141 | a text-only directory with one summary per catalog record, in order |
| `Server.GetDriverDetails` | src/index.js:143-191 | the first record with the given id gives its full profile and a one-record structured content; no match, or an id that is not a string, gives the fixed not-found notice and no structured content |
| `Server.HandleToolCall` | src/index.js:193-194 | any tool name outside the three registered names that can be printed, a missing one included, throws `Unknown tool: <name>` (`undefined` for a missing name); a name that cannot be printed throws the conversion error |
| `Server.Route` | src/index.js:234-398 | every response the switch builds echoes `request.id` with jsonrpc "2.0"; its error codes are -32601, -32602 or -32603; a throw is a failed template conversion |
| `Server.Dispatch` | src/index.js:228-411 | the reply has status 200 with the request's id, or status 500 with error -32603 and the request id when truthy, else null |
| `Server.SearchSelectsFirstMatches` | src/index.js:47-105 | with string or falsy filters, the search returns the first three matching records in catalog order, or the fixed notice when none match |
| `Server.SearchResultsPassFilters` | src/index.js:50-61 | every returned driver is in the catalog; its lower-cased city contains the lower-cased city argument, and likewise for the vehicle type |
| `Server.SearchWithoutFilters` | src/index.js:46-64 | a missing or empty filter removes nothing: with neither filter, the search returns the first three records |
| `Server.SearchThrowsIff` | src/index.js:50-61 | the search throws exactly when a truthy non-string filter meets a non-empty list |
| `Server.CityFilterThrows` | src/index.js:50-53 | a truthy non-string city over a non-empty catalog throws `args.city.toLowerCase is not a function` |
| `Server.SearchExample` | src/index.js:50-53 | the city "francisco" selects the San Francisco sedan and not the Oakland SUV |
| `Server.KnownToolsIff` | src/index.js:44-194 | with usable filters, a tool call completes exactly when the name is registered; any other name throws `Unknown tool: <name>` |
| `Server.DetailsOfListedDriver` | src/index.js:143-191 | with unique ids, the details of a listed driver are that driver's profile and that driver alone |
| `Server.ToolsCallNeverFaults` | src/index.js:366-387 | `tools/call` always answers with status 200 and the request's id: `result` when the tool completes, error -32603 with the tool's message when it throws |
| `Server.UnknownToolIsInternalError` | src/index.js:366-387 | calling an unregistered tool gives error -32603 `Unknown tool: <name>` |
| `Server.ToolsListed` | src/index.js:305-364 | `tools/list` returns the registry, whose names are search_drivers, list_all_drivers, get_driver_details in that order |
| `Server.WidgetTemplatesAgree` | src/index.js:305-364 | the tools that declare a widget template name the uri that `resources/read` serves; `list_all_drivers` declares none and never has structured content |
| `Server.ResourceReadCases` | src/index.js:271-303 | the widget uri gives the widget document; any other printable uri gives -32602 `Unknown resource: <uri>` |
| `Server.UnknownMethod` | src/index.js:389-397 | any method outside the five handled ones that can be printed, a missing one included, gives status 200 and -32601 `Method not found: <method>` (`undefined` for a missing method) |
| `Server.ErrorCodesHaveOneCause` | src/index.js:234-411 | -32601 means an unhandled method; -32602 means `resources/read`; -32603 means `tools/call` or the outer catch |
| `Server.OuterCatchCases` | src/index.js:401-411 | status 500 happens exactly when the method or uri cannot be printed; a falsy id then becomes null |
| `Widget.JsRem` | web/src/component.js:37-39 | the remainder takes the sign of the dividend and lies strictly within the divisor; below twice the divisor it wraps once |
| `Widget.Step` | web/src/component.js:36-40 | from an index in range, "next" moves forward and wraps to 0; any other direction moves back and wraps to n-1; the result stays in range |
| `Widget.NextTimesOffset` | web/src/component.js:37 | k ≤ n presses of "next" move k places, wrapping once |
| `Widget.NextCycle` | web/src/component.js:37 | n presses of "next" over n records return to the start |
| `Widget.StepsUndo` | web/src/component.js:36-40 | "prev" then "next", and "next" then "prev", are the identity on indices in range |
| `Widget.NegativeIndexStaysNegative` | web/src/component.js:37 | the remainder truncates: "next" from -5 over 3 records gives -1 |
| `Widget.Dots` | web/src/component.js:172-175 | one dot per record; dot i is active exactly when i is the current index |
| `Widget.ActiveDotCount` | web/src/component.js:172-175 | exactly one dot is active for an index in range, none otherwise |
| `Widget.CarouselNav` | web/src/component.js:165-181 | no controls for one record or none; otherwise n dots and the counter "Driver (i+1) of n" |
| `Widget.NavMarksCurrent` | web/src/component.js:172-179 | with two or more records, the dot at an index in range is the only active one |
| `Widget.RenderStars` | web/src/component.js:74-90 | the three loops produce floor(rating) full stars, a half star when the fraction is at least .5, then empty stars up to five icons |
| `Widget.StarCounts` | web/src/component.js:75-87 | for a rating in [0, 5]: five icons, floor(rating) full, one half star exactly when the fraction is at least .5, the rest empty |
| `Widget.AvailabilityText` | web/src/component.js:96-102 | "Today: <first slot>" when today's list exists and is non-empty, "Not available today" otherwise |
| `Widget.FollowUp` | web/src/component.js:45-71 | a prompt is sent exactly when the host can send and the action is book, schedule or details |
| `Widget.FollowUpInjective` | web/src/component.js:53-62 | different (action, driver name) pairs never produce the same prompt |
| `Widget.Screen` | web/src/component.js:184-208 | no records gives the placeholder; otherwise the record at the index is shown, or the first record when the index is out of range; no navigation controls for a single record; the dark flag follows the theme |
| `Widget.StaleIndexShowsFirst` | web/src/component.js:200 | a render after an unchecked jump or a shrunk list shows the first record, no active dot, and the stale counter |
| `Widget.Carousel.constructor` | web/src/component.js:5 | the index starts at 0 |
| `Widget.Carousel.RenderApp` | web/src/component.js:184-208 | the imperative render, calling `RenderStars`, produces `Screen` of the current state |
| `Widget.Carousel.Navigate` | web/src/component.js:32-42 | no records: index unchanged and no render; otherwise the index becomes `Step` of the old index, and the new screen is rendered |
| `Widget.Carousel.GoTo` | web/src/component.js:212-215 | the index becomes exactly the given value, unclamped, and the screen for it is rendered |
| `Host.SearchWidget` | web/src/component.js:8-20 | a widget opened on a search result shows the placeholder exactly when nothing matched, otherwise the first match, with at most three dots |
| `Host.DetailsWidget` | web/src/component.js:8-20 | a widget opened on a found driver's details shows that driver and no navigation controls |

## Left out

- The Express app, `cors`, `app.listen`, the `/` health route and the HTTP status plumbing apart from 200 and 500 (src/index.js:198-223, 414-424) are not modelled. They are transport, and the transport is assumed to deliver one parsed request object per call.
- `loadDriversData`, `loadComponentBundle` and the `ensureInitialized` once-flag (src/index.js:18-40, 204-211) are not modelled. They do file I/O. The catalog is a parameter, which is an empty sequence when the data file failed to load. The bundle is an `Option<string>`.
- The markdown and HTML templates (src/index.js:78-93, 118-131, 158-178; web/src/component.js:104-161, 168-180, 202-207) are not modelled as text. The model keeps only which document, notice or view is chosen and what it holds. For the same reason the counter is kept as its two numbers.
- Console logging, `res.json` serialization, and the host's `window.openai` globals are not modelled. Reading the tool output is `Host.InjectedDrivers`. Sending a prompt is the value that `Widget.FollowUp` returns. The `openai:set_globals` listener only re-renders, which is `Widget.Carousel.RenderApp`.
- The missing-root check in `renderApp` (web/src/component.js:188-193) is not modelled. The widget document always contains the root element (`Server.WidgetDocument`).
- The `try`/`catch` around `sendFollowupMessage` (web/src/component.js:68-70) is not modelled. It only logs.
- `toLowerCase` is ASCII-only. Full Unicode case mapping is not modelled.
- Ratings are integer tenths. Floating-point ratings with finer fractions are not modelled.
- Indices are integers. A non-integer index passed to `__goToDriver` is not modelled. Neither is the negative zero that `%` can produce, which JavaScript treats as 0 here.
- The messages of the engine's own `TypeError`s are modelled as fixed strings. These are "Cannot convert object to primitive value" and "args.city.toLowerCase is not a function"; other engines word them differently.
- Widget.JsRem: states the remainder only as far as navigation needs it. It gives the sign, the bound, and the exact value below twice the divisor. It does not state the general identity a = q·n + r, because navigation never divides anything at or above twice the record count, except when the index was already out of range.

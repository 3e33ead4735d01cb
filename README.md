# route_app in Dafny

A model of the field-sales application route_app. Salespeople keep a list of
customers, plan visits to them, see today's visits with the buttons that
start and complete them, and see the customers and visits on a map. This
project models the logic of that application and proves properties of it:

- **Location** (`location.dfy`, `frontend/js/location.js`): the browser-side
  location manager. It covers:
  - the last position fix;
  - the position-watch switch (`watchId`, `isTracking`);
  - the error messages of a failed fix;
  - the haversine distance, rounded to whole metres;
  - the "near enough" test, with a 500 m default. The manager defines it, but
    no page calls it.
- **VisitModel** (`visit_model.dfy`, `backend/models/Visit.js`): the visit document. It covers:
  - the status enum and its default `planned`;
  - the bounds on order lines and the notes limit;
  - the pre-save hook, which folds the order lines into `totalOrderAmount`;
  - validation on create and on update.
- **VisitRoutes** (`visit_routes.dfy`, `backend/routes/visits.js`): the visit
  table, as a class over a map. The list, today, create, update, delete and get
  handlers are all scoped to the salesperson making the request. `find().sort()` is
  a loop that inserts each selected document into a sorted sequence.
- **VisitsUi** (`visits_ui.dfy`, `frontend/js/visits.js`): today's visit list.
  Start is offered only for planned visits, Complete only for visits in
  progress, and Detail always. An empty list shows the empty-state block.
- **Maps** (`maps.dfy`, `frontend/js/maps.js`): the map manager. It covers:
  - the list of markers;
  - the guard in `addCustomerMarker`;
  - the status-coloured icons;
  - the coordinate range check;
  - clearing the markers;
  - the box that `fitToMarkers` fits the map to;
  - the split of a waypoint list into origin, stopovers and destination.
- **FixCoordinates** (`fix_coordinates.dfy`, `backend/routes/fix-coordinates.js`):
  the test for valid coordinates, and the repair loop over an array of loaded
  documents with its `fixedCount`. It also covers the repair of a single visit and
  the coordinate report, whose invalid count equals what the repair loop fixes.
- **CustomerModel** (`customer_model.dfy`, `backend/models/Customer.js`): the
  customer document. It covers:
  - the category and status enums and their defaults;
  - the length limits and the counter defaults;
  - create-time and update-time validation;
  - a `CustomerDocument` class whose `UpdateLastVisit` and `IncrementOrderCount`
    change only their own fields and then save, which validates the whole
    document.
- **CustomerRoutes** (`customer_routes.dfy`, `backend/routes/customers.js`): the
  customer table. It covers:
  - the list query, whose filters are added only when they are non-empty, sorted by name;
  - paging, with `pages = ceil(total / limit)`;
  - create, with the per-salesperson duplicate-email rejection;
  - owner-scoped get, with the ten latest visits, and update and delete;
  - the per-status visit statistics;
  - the guarded quick search.
- **CustomersUi** (`customers_ui.dfy`, `frontend/js/customers.js`): the customer
  manager. It covers:
  - the filter state and its handlers, including `clearFilters`;
  - the request parameters;
  - the choice of empty-state block;
  - the pagination controls, built by a loop;
  - the Turkish labels for categories and statuses.

`common.dfy` holds `Option`, `Result` and the HTTP failures. `ordering.dfy`
holds the sorted insertion that stands for the store's sort, the skip/limit
window, and the binary string order that names are sorted by.

**Inputs the model takes as parameters.** The environment enters the model as
parameters, never as hidden state:

- whether the browser offers geolocation, and the position or error it reports;
- the watch id the browser hands out;
- the `Math.random()` draws;
- the current time and the time-zone offset;
- the replies the API gives. A reply is a failed fetch, an error answer or an
  answer with data. `api.request` parses every answer as JSON whatever its
  status, so an error answer resolves like a good one, only without `data`;
- the text-index match, the case-insensitive regular expression match and the
  email pattern. Each of these is a predicate.

**What the code does and does not enforce.** Some behaviour of the code is
easy to expect otherwise. The model states it as the code has it:

- **Rounding before the comparison.** `isLocationNearby` rounds the distance to
  whole metres and then compares it with `<=`. So a fix is "near" exactly when
  the raw distance is below the threshold's floor plus 0.5, so 500.5 m for
  the default of 500 (`Location.LocationManager.IsLocationNearby`). Comparing
  the unrounded distance would make the limit exactly `maxDistance`.
- **No status transitions.** The update route writes any status over any other
  (`VisitModel.MergeAllowsAnyTransition`). It makes no conditional update
  either. A lifecycle check would refuse, for example, a completed visit going
  back to planned. No route checks the salesperson's distance from the customer.
- **Update order lines keep the old total.** An update sends order lines through
  `findOneAndUpdate`, which does not run the pre-save hook. The stored total then
  keeps its old value (`VisitModel.MergeKeepsStaleTotal`).
- **Validation before lookup on update.** Mongoose runs the update validators on
  the body before it looks the document up. So an invalid update body is a 500
  even when no document matches the id; only a valid body can produce the 404.
- **Duplicate email is checked only on create.** The customer update route applies
  the body without the duplicate-email check that create makes.
- **Two coordinate checks.** The repair routes' check and the map's range check
  disagree. A point on the equator passes the map's check but is "invalid" for
  the repair routes, and a latitude of 100 is the other way round
  (`FixCoordinates.ValidityChecksCompared`).

## Model

| member | source | states |
|---|---|---|
| Common.Code | backend/routes/customers.js:66-96 | every failure is a 4xx or 5xx code: 404 exactly for a missing document, 400 for a bad request and 500 for a server error |
| Ordering.Insert | backend/routes/visits.js:10 | inserting into the sorted result keeps every element and adds the new one exactly once |
| Ordering.InsertSorted | backend/routes/visits.js:10 | inserting into a sorted sequence under a total preorder keeps it sorted |
| Ordering.Window | backend/routes/customers.js:29-32 | `.skip(s).limit(l)` returns at most `l` rows, the ones from position `s` on, and none past the end |
| Ordering.LexLeTotal | backend/routes/customers.js:30 | any two names are comparable in the store's string order |
| Ordering.LexLeReflexive | backend/routes/customers.js:30 | every name sorts with itself |
| Ordering.LexLeAntisymmetric | backend/routes/customers.js:30 | names that sort both ways are equal |
| Ordering.LexLeTransitive | backend/routes/customers.js:30 | the name order is transitive |
| Location.Haversine | frontend/js/location.js:91-101 | the unrounded haversine distance is never negative |
| Location.Round | frontend/js/location.js:103 | `Math.round` gives the integer within half a unit, halves rounded up |
| Location.CalculateDistance | frontend/js/location.js:91-104 | the distance is a non-negative whole number of metres within 0.5 m of the haversine value |
| Location.DistanceToSelf | frontend/js/location.js:91-104 | the distance from a point to itself is 0 |
| Location.ErrorMessage | frontend/js/location.js:36-41 | codes 1, 2 and 3 give the denied, unavailable and timeout messages; any other code gives the generic message |
| Location.ErrorMessagesDistinct | frontend/js/location.js:36-41 | two codes share a message exactly when they are equal or both unknown |
| Location.LocationManager.constructor | frontend/js/location.js:2-6 | a new manager has no fix, no watch id and is not tracking |
| Location.LocationManager.GetCurrentLocation | frontend/js/location.js:9-46 | without the API it rejects with the unsupported message; a position becomes the current location; an error rejects with the code's message and leaves the location unchanged |
| Location.LocationManager.StartTracking | frontend/js/location.js:49-78 | it does nothing without the API or while tracking; otherwise it stores the new watch id and turns tracking on |
| Location.LocationManager.OnWatchPosition | frontend/js/location.js:59-65 | each watched position replaces the current location |
| Location.LocationManager.StopTracking | frontend/js/location.js:81-88 | a truthy watch id is cleared and tracking turned off; a missing or zero id leaves the state unchanged |
| Location.LocationManager.RequestLocationPermission | frontend/js/location.js:139-148 | it is granted exactly when a fix arrives, and then tracking is on, under the new watch id unless tracking was already on, which keeps the old one; a refusal changes nothing |
| Location.RoundAtMost | frontend/js/location.js:103 | a rounded value is at most a threshold exactly when the unrounded one is below the threshold's floor plus 0.5 |
| Location.LocationManager.IsLocationNearby | frontend/js/location.js:111-122 | false without a fix; otherwise, for any number `maxDistance`, true exactly when the raw distance is below its floor plus 0.5 |
| Location.DefaultThreshold | frontend/js/location.js:111-122 | with the default threshold of 500 m, near means under 500.5 m, and a fix at the target is near it |
| VisitModel.ParseStatus | backend/models/Visit.js:35-39 | only the four status keys pass the enum check, each to its own status |
| VisitModel.StatusRoundTrip | backend/models/Visit.js:35-39 | status to key to status is the identity, and only the status's own key parses to it |
| VisitModel.OrderTotalAppend | backend/models/Visit.js:66-68 | each order line adds quantity × unitPrice to the total |
| VisitModel.OrderTotal | backend/models/Visit.js:51-68 | the hook's fold over the lines; under the line bounds (quantity ≥ 1, unitPrice ≥ 0) it is never negative |
| VisitModel.OrderTotalIgnoresTotalPrice | backend/models/Visit.js:66-68 | the total depends only on the quantities and unit prices, not on the lines' own `totalPrice` |
| VisitModel.WithComputedTotal | backend/models/Visit.js:64-71 | the hook changes only `totalOrderAmount`; it recomputes it when there are lines and leaves a document without lines as it was |
| VisitModel.ComputedTotalFacts | backend/models/Visit.js:64-71 | with valid lines the saved total is non-negative, and running the hook twice equals running it once |
| VisitModel.Draft | backend/models/Visit.js:3-61 | a document is built exactly when salesperson, customer and date are given and the status is a known key; status, confirmation, orders and total take their defaults |
| VisitModel.Save | backend/models/Visit.js:3-71 | save succeeds exactly when the built document passes validation; the stored document is the validated one after the hook, and a failure is a 500 |
| VisitModel.CreateDefaults | backend/models/Visit.js:35-58 | a minimal body gives a planned, unconfirmed visit with no orders and a zero total |
| VisitModel.Merge | backend/routes/visits.js:71-75 | an update succeeds exactly when the paths it sets pass validation, and fails with a 500 otherwise; salesperson and total come from the body when it sets them and are kept otherwise; an empty body changes nothing |
| VisitModel.MergeKeepsValid | backend/routes/visits.js:71-75 | an accepted update keeps a valid document valid |
| VisitModel.MergeAllowsAnyTransition | backend/routes/visits.js:71-75 | any status may be written over any other |
| VisitModel.MergeKeepsStaleTotal | backend/models/Visit.js:64-71 | order lines sent in an update replace the stored ones but leave the total unchanged |
| VisitRoutes.PlannedDateOrdersArePreorders | backend/routes/visits.js:10 | ascending and descending planned date are total preorders |
| VisitRoutes.LocalMidnight | backend/routes/visits.js:22-25 | the day starts at a local midnight at or before now, less than a day earlier |
| VisitRoutes.VisitStore.Find | backend/routes/visits.js:10 | the result holds each selected document exactly once, in sort order |
| VisitRoutes.VisitStore.List | backend/routes/visits.js:7-17 | exactly the caller's visits, ascending by planned date |
| VisitRoutes.VisitStore.Today | backend/routes/visits.js:20-40 | exactly the caller's visits planned in [local midnight, next midnight), ascending |
| VisitRoutes.VisitStore.Create | backend/routes/visits.js:43-65 | the salesperson is forced to the caller; a valid body is stored under a fresh id; a rejected one is a 500 and stores nothing |
| VisitRoutes.VisitStore.Update | backend/routes/visits.js:68-90 | an invalid body is a 500; an id the caller does not own is a 404; otherwise the merged visit replaces only that entry; every stored id stays below the next id |
| VisitRoutes.VisitStore.Delete | backend/routes/visits.js:93-110 | it removes only the caller's own visit; otherwise it is a 404 and nothing is removed; every stored id stays below the next id |
| VisitRoutes.VisitStore.Get | backend/routes/visits.js:113-130 | it returns the visit exactly when the caller owns it, and a 404 otherwise |
| VisitsUi.StatusText | frontend/js/visits.js:68-76 | the four statuses get their labels; an unknown value is shown unchanged |
| VisitsUi.ActionsFor | frontend/js/visits.js:49-63 | Start iff planned, Complete iff in progress, and Detail always, as the last button |
| VisitsUi.ActionsExclusive | frontend/js/visits.js:49-63 | Start and Complete are never offered together; completed and cancelled visits get Detail alone |
| VisitsUi.VisitManager.constructor | frontend/js/visits.js:2-4 | the list starts empty |
| VisitsUi.VisitManager.LoadVisits | frontend/js/visits.js:6-18 | an answer's data replaces the list and is rendered; an error answer leaves the list `undefined` and renders nothing; a failed fetch keeps the list and renders nothing |
| VisitsUi.VisitManager.RenderVisits | frontend/js/visits.js:20-66 | it throws exactly when the list is `undefined`; the empty state iff the list is empty; otherwise one item per visit, in order, with the status-gated actions |
| Maps.IconFile | frontend/js/maps.js:56-68 | orange iff in progress, green iff completed, blue for anything else |
| Maps.StatusText | frontend/js/maps.js:182-189 | three statuses get labels; anything else, `cancelled` included, is shown unchanged |
| Maps.StatusTextsAgreeExceptCancelled | frontend/js/maps.js:182-189 | the map and the visit list label every status alike except `cancelled` |
| Maps.RouteFor | frontend/js/maps.js:136-148 | no request for fewer than two waypoints; otherwise origin, stopovers and destination put back together are the waypoints |
| Maps.ValidateCoordinates | frontend/js/maps.js:118-120 | a point passes exactly when it lies in the globe's box, edges included |
| Maps.BoundsOf | frontend/js/maps.js:174-180 | the box contains every point, and each of its sides touches one of the points |
| Maps.FittedBoxOnGlobe | frontend/js/maps.js:118-120 | a box fitted to points that pass the range check has its corners on the globe |
| Maps.MapManager.constructor | frontend/js/maps.js:2-7 | there are no markers at first |
| Maps.MapManager.AddMarker | frontend/js/maps.js:33-43 | the new marker is appended at the end |
| Maps.MapManager.AddCustomerMarker | frontend/js/maps.js:47-108 | null and no change for a missing or non-numeric location or an SDK failure; otherwise one marker with the status icon is appended |
| Maps.MapManager.AddCurrentLocationMarker | frontend/js/maps.js:123-133 | null without a fix; otherwise a red marker at the fix is appended |
| Maps.MapManager.ClearMarkers | frontend/js/maps.js:168-171 | the list is empty afterwards |
| Maps.MapManager.FitToMarkers | frontend/js/maps.js:174-180 | nothing for no markers; otherwise exactly the box the markers' positions extend the bounds to, which holds every marker |
| FixCoordinates.HasValidCoordinates | backend/routes/fix-coordinates.js:15-19 | a visit that passes the repair routes' check has a location the map can place a marker at |
| FixCoordinates.ValidityChecksCompared | backend/routes/fix-coordinates.js:15-19 | off both zero lines, every point on the globe passes the repair check; a point on the equator passes the map's range check but not the repair check, and a latitude of 100 passes the repair check but not the range check |
| FixCoordinates.JitterInRange | backend/routes/fix-coordinates.js:25-26 | a draw in [0, 1) lands within half the spread of the centre |
| FixCoordinates.RandomLocationInRange | backend/routes/fix-coordinates.js:24-27 | a repaired location is within 0.05° of central Istanbul, passes the validity test and passes the map's range check |
| FixCoordinates.CountInvalid | backend/routes/fix-coordinates.js:15-19 | there are never more invalid visits than visits |
| FixCoordinates.FixAllCoordinates | backend/routes/fix-coordinates.js:6-44 | on success `fixedCount` is the number of visits that were invalid, valid ones are untouched and every visit is now valid; a failed save is a 500 at the first visit whose save fails, with the visits before it repaired and the rest untouched |
| FixCoordinates.FixVisit | backend/routes/fix-coordinates.js:47-76 | 404 for an unknown id; otherwise the visit is moved to the drawn point (spread 0.05°), saved through the hook and its customer name and new location returned, or a 500 and no change if it fails validation; every stored id stays below the next id |
| FixCoordinates.CountFlaggedSplit | backend/routes/fix-coordinates.js:98-99 | the valid and invalid counts add up to the number of rows |
| FixCoordinates.InvalidRowsCounted | backend/routes/fix-coordinates.js:87-99 | the rows flagged invalid are exactly the visits the repair loop counts |
| FixCoordinates.ListCoordinates | backend/routes/fix-coordinates.js:79-105 | one row per visit with the validity flag; valid + invalid = total, and invalid equals the repair count |
| CustomerModel.ParseCategory | backend/models/Customer.js:37-41 | only the four category keys pass the enum check |
| CustomerModel.ParseCustomerStatus | backend/models/Customer.js:42-46 | only the three status keys pass the enum check |
| CustomerModel.EnumRoundTrips | backend/models/Customer.js:37-46 | both enums round-trip through their keys, and only a value's own key parses to it |
| CustomerModel.Build | backend/models/Customer.js:3-69 | a customer is built exactly when the required paths are present and non-empty, the name and notes are within their limits, a non-empty email matches the pattern and the enum values are known; it then has the given name and owner, and category, status and counters default to retail, active and zero |
| CustomerModel.BuildDefaults | backend/models/Customer.js:37-66 | a minimal body gives a retail, active customer with no orders, nothing spent and no visit yet |
| CustomerModel.Merge | backend/routes/customers.js:123-127 | an update fails exactly when a path it sets breaks validation; name, salesperson and order count come from the body when it sets them and are kept otherwise; it keeps a valid customer valid, and an empty body changes nothing |
| CustomerModel.BuiltIsDocumentValid | backend/models/Customer.js:3-69 | a customer built from a body passes the validation of a later save |
| CustomerModel.CustomerDocument.UpdateLastVisit | backend/models/Customer.js:72-75 | only `lastVisitDate` changes, and it becomes the current time; the save succeeds exactly when the changed document validates, always when it was valid before, and a rejection is a 500 |
| CustomerModel.CustomerDocument.IncrementOrderCount | backend/models/Customer.js:78-82 | the order count rises by 1 and the amount spent by `amount`; nothing else changes; the save succeeds exactly when the changed document validates, always when it was valid before, and a rejection is a 500 |
| CustomerModel.RecordOrderWithoutAmount | backend/models/Customer.js:78-82 | without an amount the order count rises by 1 and nothing else changes, not even the amount spent; the save succeeds exactly when the document validates, always when it was valid before, and a rejection is a 500 |
| CustomerRoutes.RowOrdersArePreorders | backend/routes/customers.js:30 | sorting by name, and by insertion order, are total preorders |
| CustomerRoutes.ListQueryMeaning | backend/routes/customers.js:12-27 | the query selects the caller's customers, narrowed by each non-empty filter only |
| CustomerRoutes.PageCountIsCeiling | backend/routes/customers.js:41 | `pages` is the least page count that holds all rows, and 0 exactly when there are none |
| CustomerRoutes.PageInRange | backend/routes/customers.js:31-41 | a page is non-empty exactly when its number is at most `pages` |
| CustomerRoutes.GroupsFor | backend/routes/customers.js:186-192 | each bucket carries its status's visit count and amount, and every status some visit has gets a bucket |
| CustomerRoutes.GroupsForSums | backend/routes/customers.js:186-192 | dropping the empty buckets loses no visit and no amount |
| CustomerRoutes.EmptyStatusNoAmount | backend/routes/customers.js:186-192 | a status no visit has contributes no amount |
| CustomerRoutes.StatusCountsPartition | backend/routes/customers.js:186-192 | the four status counts add up to the number of visits, and their amounts to the total amount |
| CustomerRoutes.OverAllStatuses | backend/routes/customers.js:186-192 | summed over all four statuses, the counts give the number of visits and the amounts the total |
| CustomerRoutes.GroupByStatusCovers | backend/routes/customers.js:179-193 | the buckets' counts add up to the number of matching visits, and their amounts to the total amount |
| CustomerRoutes.CustomerStore.Find | backend/routes/customers.js:29-30 | each selected customer exactly once, in sort order |
| CustomerRoutes.CustomerStore.List | backend/routes/customers.js:8-49 | a page below 1 is a 500; otherwise the page is rows (page−1)·limit onward of the caller's matching customers sorted by name, with the ceiling page count and the total |
| CustomerRoutes.CustomerStore.Create | backend/routes/customers.js:52-85 | a non-empty email one of the caller's customers already has is a 400 and stores nothing; a rejected body is a 500; otherwise the customer is stored under a fresh id with the caller as owner; no salesperson gains two customers with one email |
| CustomerRoutes.CustomerStore.Get | backend/routes/customers.js:88-118 | a customer the caller does not own is a 404; otherwise the customer and the first ten of its visits, newest first |
| CustomerRoutes.CustomerStore.Update | backend/routes/customers.js:121-142 | an invalid body is a 500; a customer the caller does not own is a 404; otherwise the merged customer replaces only that entry; every stored id stays below the next id |
| CustomerRoutes.CustomerStore.Delete | backend/routes/customers.js:145-164 | it removes only the caller's own customer; otherwise it is a 404 and nothing is removed; every stored id stays below the next id |
| CustomerRoutes.CustomerStore.Stats | backend/routes/customers.js:167-234 | a customer the caller does not own is a 404; otherwise the per-status buckets of the matching visits, whose counts add up to the number of those visits |
| CustomerRoutes.CustomerStore.QuickSearch | backend/routes/customers.js:237-261 | nothing for a missing or one-character query; a query the store cannot compile as a pattern is a 500; otherwise the first ten of the caller's matching customers, projected to name, phone, email and address |
| CustomersUi.CategoryText | frontend/js/customers.js:270-278 | the four categories get their labels; an unknown key is shown unchanged |
| CustomersUi.StatusText | frontend/js/customers.js:280-287 | the three statuses get their labels; an unknown key is shown unchanged |
| CustomersUi.LabelsCoverEnums | frontend/js/customers.js:270-287 | distinct enum values get distinct labels, and no label is a raw key |
| CustomersUi.PaginationControlsOffered | frontend/js/customers.js:137-166 | previous iff the page is past the first, next iff it is before the last, a button for every other page, and exactly the current page marked |
| CustomersUi.PaginationShapeUnique | frontend/js/customers.js:137-166 | the description of the controls determines them completely |
| CustomersUi.CustomerManager.constructor | frontend/js/customers.js:2-8 | no customers, page 1 and empty filters at first |
| CustomersUi.CustomerManager.LoadParams | frontend/js/customers.js:15-30 | page and limit 20 always; each filter only when it is non-empty |
| CustomersUi.CustomerManager.EmptyStateFor | frontend/js/customers.js:112-134 | the "no match" block iff some filter is non-empty |
| CustomersUi.CustomerManager.RenderCustomers | frontend/js/customers.js:48-109 | it throws exactly when the list is `undefined`; the empty state iff the list is empty; otherwise one card per customer, in order |
| CustomersUi.CustomerManager.RenderPagination | frontend/js/customers.js:137-166 | nothing for a missing block or one page; otherwise previous if past page 1, then pages 1..pages with only the current one marked, then next if before the last |
| CustomersUi.CustomerManager.LoadCustomers | frontend/js/customers.js:11-45 | it sends the parameters for the page; an answer sets the rows and the page and renders both; an error answer leaves the rows `undefined`, still sets the page and renders nothing; a failed fetch changes nothing |
| CustomersUi.CustomerManager.ClearFilters | frontend/js/customers.js:313-318 | all three filters are emptied and page 1 is requested with no filter; an answer sets page 1 and its rows and shows their rendering with the pagination controls for page 1; an error answer unsets the rows and shows nothing; a failed fetch changes nothing and shows nothing |
| CustomersUi.CustomerManager.HandleSearch | frontend/js/customers.js:587-590 | it sets only the search text and requests page 1; an answer sets page 1 and its rows and shows their rendering with the pagination controls for page 1; an error answer unsets the rows and shows nothing; a failed fetch changes nothing and shows nothing |
| CustomersUi.CustomerManager.HandleCategoryChange | frontend/js/customers.js:593-596 | it sets only the category filter and requests page 1; an answer sets page 1 and its rows and shows their rendering with the pagination controls for page 1; an error answer unsets the rows and shows nothing; a failed fetch changes nothing and shows nothing |
| CustomersUi.CustomerManager.HandleStatusChange | frontend/js/customers.js:599-602 | it sets only the status filter and requests page 1; an answer sets page 1 and its rows and shows their rendering with the pagination controls for page 1; an error answer unsets the rows and shows nothing; a failed fetch changes nothing and shows nothing |
| CustomersUi.ParamsAgreeWithServer | frontend/js/customers.js:20-30 | leaving out the empty filters selects what sending them would; "no match" is shown iff the request carries a filter |

## Left out

- Location.Haversine: sine, cosine, square root, arctangent and π are
  parameters. Only the facts the proofs use are stated about them, so the model
  proves nothing about the numeric value of a distance. NaN and other
  floating-point effects are not modelled.
- Location.LocationManager.GetCurrentLocation: the fix's clock reading comes in
  with the position. The page's status text (`updateLocationStatus`) is HTML and
  is not modelled.
- VisitRoutes.LocalMidnight: the time zone is a fixed offset, so
  daylight-saving days of 23 or 25 hours are not modelled.
- CustomerRoutes.CustomerStore.List: the model requires `limit ≥ 1`. A zero
  limit makes the store return every row and the page count divide by zero, and
  a negative one is read by the store as a single batch; neither is modelled.
  Non-numeric query strings are not modelled either.
- CustomerRoutes.CustomerStore.QuickSearch: "first ten" is taken in insertion
  order, which stands for the store's natural order. The regular expression
  match and whether a query compiles as a pattern are the parameters `regex` and
  `validPattern`. Array-valued query parameters are not modelled.
- CustomerRoutes.CustomerStore.Stats: the six-month trend, grouped by calendar
  month, is not modelled, because it needs calendar arithmetic. The buckets come
  in a fixed status order; the store's order is unspecified.
- CustomerModel.Build: the `trim` and `lowercase` setters are not modelled, and
  names and emails are compared exactly as stored. The email pattern is the
  parameter `validEmail`.
- FixCoordinates.FixAllCoordinates: `typeof x === 'number'` also accepts NaN,
  which this model has no value for.
- Numbers outside the distance are exact rationals (`real`), not IEEE doubles.
  The hook's order total, the stats amounts, the customer's `totalSpent` and the
  repair jitter are therefore exact sums and products. Floating-point rounding
  of them, such as `0.1 + 0.2` in a visit total, is not captured.
- CustomerModel.CustomerDocument.UpdateLastVisit: `save()` is modelled as the
  whole-document validation and the document it would store. The write to the
  collection is not modelled, since the document is not tied to a store here.
  No route calls this method.
- CustomerModel.CustomerDocument.IncrementOrderCount: `save()` is modelled as
  for `UpdateLastVisit`, without the write to the collection. No route calls
  this method.
- The `createdAt`/`updatedAt` timestamps, cast errors on malformed ids, and
  documents that fail to load are not modelled.
- Authentication (`backend/routes/auth.js`, `backend/middleware/auth.js`,
  `frontend/js/auth.js`, `backend/models/User.js`) is not modelled. It consists
  of password hashing and token calls; the model takes the caller's user id as
  given.
- `frontend/js/offline.js`, `frontend/sw.js`, `frontend/js/app.js` and
  `backend/server.js` are not part of this model. They are browser storage,
  caching and DOM wiring. Of `frontend/js/api.js` only what `request` resolves
  to is modelled, as the three-way reply; the URLs and headers are left out.
- `backend/models/Order.js` is not part of this model. It declares a schema and
  has no behaviour.
- `backend/routes/debug.js` is not part of this model. Its validity test (lines
  15-17) is weaker than the repair routes' test: it does not reject a 0
  coordinate.
- HTML, `innerHTML`, alerts, currency and date formatting, info windows and the
  directions service call are left out. Rendered output is reduced to items,
  cards and controls.
- The label lookups in `getStatusText`/`getCategoryText` would return inherited
  object properties for keys such as `constructor`. That JavaScript quirk is not
  modelled.
- String length is counted in characters, not UTF-16 code units.
- Maps.BoundsOf: a box that wraps across the antimeridian is not modelled.
- Async suspension and concurrent requests are not modelled. The code makes no
  conditional update, so there is no concurrency property to state.

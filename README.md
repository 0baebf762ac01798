# Shipping API core, modelled in Dafny

This project models the decision logic of a FastAPI shipping service. The service chooses carriers for an order and creates the shipments. It also lets employees claim internal deliveries and report their progress, and it authorises callers from the claims of their token. The Dafny modules follow the service's files:

- `Delivery` (`app/shipping/delivery.py`): the carrier loop per warehouse chunk, with its early `break` and strict `<`. It also sets the SLA flag (SLA: the delivery-time allowance of the chosen service level) and refuses a breakdown that misses the SLA.
- `Orders` and `Stock` (`app/routers/orders.py`): creating a delivery means removing stock and creating a shipment for each chunk. One add-and-commit follows. If anything raises, every recorded removal is added back. Creating a return ships it to the tech-support address through the internal fleet. The delivery loop takes the shipment-row construction as a parameter, so both the code as written and the evidently intended construction are modelled (see "## Findings"). Warehouse stock is an `Inventory` object whose level map the methods update in place. The delivery and return tables are an `OrderStore` object.
- `InternalProvider`, `UpsProvider`, `FedexProvider`, `UspsProvider` and `ProviderBase` (`app/shipping/providers/`): carrier constants as integer tenths, and the tracking-id layout of each carrier. The random draws are parameters that must come from the stated alphabet.
- `NearestWarehouse` (`app/database/warehouse.py`): the arg-min scan with strict `<`. The distance is an abstract function to naturals.
- `ShipmentQuery`, `SqlLike`, `ShipmentsRouter` and `InternalRouter` (`app/routers/shipments.py`, `app/routers/internal.py`):
  - listing shipments is filter, then sort on `created_at`, then limit/offset, over a list of rows;
  - `ILIKE '%text%'` is SQL `LIKE` over ASCII-lower-cased text;
  - claiming and status updates are guarded transitions on a `ShipmentTable` object, a map from shipment id to row.
- `Profile` and `AuthDependencies` (`app/auth/`): building the account profile from a claim map. This covers Python's `str.split`, `UUID(...)`, `== True` and `dict.get` as used there. The role and scope guards are also modelled.
- Support modules: `Wrappers` (Option/Result), `Errors` (the exceptions that can escape), `Strings` (split/join), `Uuids` (`str(u)` and `UUID(text)`), `Enums`, `Models` (the pydantic models) and `Schemas` (the stored rows).

Modelling conventions:

- Times are integer seconds.
- Every `datetime.now()` reading is a parameter.
- Collaborators that are not in the model are inputs: an outcome value says whether the call raises and what it returns. These are stock removal, `create_shipment`, `db.commit`, the transit time of each (chunk, carrier) pair, warehouse addresses and distances.

## Model

| member | source | states |
|---|---|---|
| Delivery.SlaTimesDecrease | app/shipping/delivery.py:24-29 | The SLA allowances are 5 days, 2 days, 1 day and 12 hours. They are positive and strictly decrease from STANDARD to SAME_DAY. |
| Delivery.InternalHasSmallestSpeedMult | app/shipping/providers/internal.py:20-23 | The carrier multipliers 0.5 (internal) < 1.5 (FedEx) < 2.0 (UPS) < 2.5 (USPS), as tenths. The internal fleet's is the smallest. |
| Delivery.Examined | app/shipping/delivery.py:47-57 | The number of carriers the loop evaluates. Every carrier before the last one examined is at or over the limit. The last one is strictly under the limit, unless all were examined. |
| Delivery.FirstMinIndex | app/shipping/delivery.py:51-53 | The index the strict-`<` scan keeps: a minimum, with every earlier time strictly greater, so ties go to the earlier carrier. |
| Delivery.ChooseCarrier | app/shipping/delivery.py:44-57 | The choice is some examined carrier with its own time, no slower than any examined carrier and strictly faster than every examined carrier before it. |
| Delivery.SelectCarrier | app/shipping/delivery.py:44-57 | The loop, in the fixed order FedEx, UPS, USPS, internal, with its `break`. It returns exactly the first minimum among the examined carriers (`ChooseCarrier`). |
| Delivery.FirstUnderLimitIsChosen | app/shipping/delivery.py:51-57 | If carrier k is the first strictly under the SLA, the loop stops there and picks it with its time. Later, faster carriers are never looked at. |
| Delivery.NoneUnderLimitChoosesGlobalMin | app/shipping/delivery.py:47-57 | If no carrier is under the SLA, all four are evaluated and the first global minimum is chosen. |
| Delivery.ChoiceMeetsLimitIff | app/shipping/delivery.py:51-60 | The chosen time is within the SLA (`<=`) iff some carrier's time is. A time equal to the allowance still meets it. |
| Delivery.GetDeliveryBreakdown | app/shipping/delivery.py:32-75 | `expected_at` is start + allowance. There is one entry per chunk, in order, carrying the chunk's warehouse id and items, the warehouse address, the chosen carrier, and the clock reading plus the chosen time. `can_meet_sla` holds iff every chunk's choice is within the allowance, equivalently every chunk's delivery time is within the clock reading plus the allowance. |
| Delivery.CreateDeliveryShipments | app/shipping/delivery.py:78-84 | Raises ValueError "Cannot meet SLA" iff the breakdown cannot meet the SLA. |
| Stock.LevelWithdrawn | app/routers/orders.py:83 | Removing a chunk lowers each (warehouse, upc) level by exactly the quantity the chunk's item lines ask for. |
| Stock.LevelDeposited | app/routers/orders.py:141 | Adding a chunk back raises each level by exactly that quantity. |
| Stock.LevelWithdrawAll | app/routers/orders.py:79-84 | Removing several chunks lowers each level by their total demand. |
| Stock.LevelDepositAll | app/routers/orders.py:140-141 | Adding several chunks back raises each level by their total demand. |
| Stock.RollbackRestores | app/routers/orders.py:138-141 | Adding back exactly the recorded removals restores every stock level. |
| Stock.Withdrawn | app/routers/orders.py:83 | Removing a chunk from warehouse w leaves every other warehouse's levels unchanged. |
| Stock.Deposited | app/routers/orders.py:141 | Adding a chunk back to warehouse w leaves every other warehouse's levels unchanged. |
| Stock.Inventory.RemoveWarehouseStock | app/routers/orders.py:83 | Success: the levels become the withdrawn levels. Failure: the error propagates and the levels are unchanged. |
| Stock.Inventory.AddWarehouseStock | app/routers/orders.py:141 | The levels become the deposited levels. |
| Stock.Inventory.RestoreRemovals | app/routers/orders.py:140-141 | The loop over the recorded removals leaves the levels equal to all of them deposited, in order. |
| Orders.Excluding | app/routers/orders.py:100 | `model_dump(exclude=...)` keeps a field iff it is a field of the model and is not excluded. |
| Orders.KeywordArguments | app/routers/orders.py:99-113 | Unpacking a dump next to explicit keywords raises TypeError iff some name occurs in both. Otherwise the call receives exactly the union of the names. |
| Orders.BuildStoredShipment | app/routers/orders.py:99-113 | The shipment row builds iff both `status` and `items` are excluded from the dump, and otherwise raises TypeError. A built row copies every shipment field, carries the given status and has no reservation. |
| Orders.DuplicateStatusRaises | app/routers/orders.py:99-106 | As the router builds the row, with only `items` excluded, the call always raises TypeError. |
| Orders.ExcludingStatusBuilds | app/routers/orders.py:99-113 | With `status` excluded too, the row always builds from the shipment and the explicit status. |
| Orders.StoredShipmentAsWritten | app/routers/orders.py:99-113 | The router's call, with only `items` excluded from the dump. Whenever it builds, the row is the shipment's fields with the given status and no reservation. |
| Orders.StoredShipmentOf | app/routers/orders.py:99-113 | The call with `status` excluded as well. Whenever it builds, the row is the shipment's fields with the given status and no reservation. |
| Orders.BuildRowIsConstruction | app/routers/orders.py:99-113 | What the delivery loop gets from building a row is exactly what each construction's `schemas.Shipment(...)` call gives: TypeError as written, the row when corrected. |
| Orders.OrderStore.AddDelivery | app/routers/orders.py:127-128 | A successful commit appends the delivery. A failed one propagates its error and stores nothing. Returns are untouched. |
| Orders.OrderStore.AddReturn | app/routers/orders.py:191-192 | A successful commit appends the return. A failed one propagates its error and stores nothing. Deliveries are untouched. |
| Orders.FirstFailingChunk | app/routers/orders.py:79-113 | The position of the first chunk for which the loop body raises: in its removal, its shipment creation, or (as written) in building its row. Every earlier chunk got through all three. |
| Orders.AsWrittenStopsAtFirstChunk | app/routers/orders.py:79-113 | As written the loop never passes the first chunk. When that chunk's removal and creation succeed, it raises TypeError with its removal recorded. |
| Orders.ShipChunks | app/routers/orders.py:79-115 | Chunks are handled in order: removal, then creation, then the row with the given construction. The recorded removals are exactly the chunks up to and including the failing one, when that chunk's removal succeeded. One shipment request is made per recorded removal, from the chunk's warehouse with its items and carrier to the recipient. The error raised is the first chunk's error. Without an error, every chunk has its shipment and a pending row. The stock equals the old stock minus the recorded removals. |
| Orders.CreateOrderDelivery | app/routers/orders.py:55-144 | An SLA miss raises 400 before any removal or request. Otherwise the outcome is all or nothing. Success iff every chunk succeeds and the commit succeeds. Then the delivery holds one shipment per chunk, the stock is lowered by every chunk, and one stored delivery is appended whose rows are the constructed rows, PENDING with the chunk's delivery time as `expected_at`. On any failure no delivery is stored, every stock level is back at its old value, and the first error raised escapes. As written, only a delivery without chunks succeeds. When the first chunk's removal and creation succeed, the result is TypeError after exactly one shipment request, with every stock level restored and nothing stored. |
| Orders.CreateOrderReturn | app/routers/orders.py:159-202 | The shipment request goes from the customer's address to "119 Ranch Dr, Maggie Valley, NC 28751" through the internal fleet with the return's items. Success iff creation and commit succeed. Then the return with the created shipment is stored and returned. Otherwise nothing is stored and the error propagates. |
| NearestWarehouse.FirstNearestIsUnique | app/database/warehouse.py:24-27 | At most one position is the first nearest, so the scan's answer is determined. |
| NearestWarehouse.GetNearestWarehouse | app/database/warehouse.py:12-29 | None iff there are no warehouses. Otherwise one of the warehouses, at least as near as every other, and the earliest among equally near ones. |
| ProviderBase.GetShipmentStatus | app/shipping/providers/__init__.py:15-22 | The base status query always raises NotImplementedError. |
| ProviderBase.JoinDigitGroups | app/shipping/providers/fedex.py:42-46 | Space-joining four-digit draws gives the spaced-digit layout, and splitting it on ' ' gives the draws back. |
| ProviderBase.SpacedDigitsAreJoins | app/shipping/providers/usps.py:29-33 | Every string with the spaced-digit layout is the join of its groups. |
| InternalProvider.GetShipmentStatus | app/shipping/providers/internal.py:25-26 | Delegates to the base and raises NotImplementedError. |
| InternalProvider.CreateRandomId | app/shipping/providers/internal.py:28-29 | The tracking id is `str(id)`, 36 characters, and parsing it gives the id back. |
| InternalProvider.TrackingIdIdentifiesShipment | app/shipping/providers/internal.py:28-29 | Equal tracking ids iff equal shipment ids. |
| UpsProvider.GetShipmentStatus | app/shipping/providers/ups.py:26-27 | Delegates to the base and raises NotImplementedError. |
| UpsProvider.CreateRandomId | app/shipping/providers/ups.py:29-33 | 18 characters: "1Z", six from 0-9A-F, "3E", eight digits. Both draws sit at their positions. |
| UpsProvider.EveryTrackingIdIsDrawn | app/shipping/providers/ups.py:30-33 | Every string of that layout is produced by some draw. |
| UpsProvider.IgnoresAssociated | app/shipping/providers/ups.py:29-33 | The result does not depend on the shipment id. |
| FedexProvider.GetShipmentStatus | app/shipping/providers/fedex.py:49-50 | Delegates to the base and raises NotImplementedError. |
| FedexProvider.CreateRandomId | app/shipping/providers/fedex.py:41-47 | 14 characters with spaces exactly at 4 and 9, digits elsewhere. Splitting on ' ' gives the three draws. |
| FedexProvider.EveryTrackingIdIsDrawn | app/shipping/providers/fedex.py:42-46 | Every string of that layout is produced by some draw. |
| FedexProvider.IgnoresAssociated | app/shipping/providers/fedex.py:41-47 | The result does not depend on the shipment id. |
| UspsProvider.GetShipmentStatus | app/shipping/providers/usps.py:25-26 | Delegates to the base and raises NotImplementedError. |
| UspsProvider.CreateRandomId | app/shipping/providers/usps.py:28-34 | 24 characters with spaces exactly at 4, 9, 14 and 19. Splitting on ' ' gives the five four-digit draws. |
| UspsProvider.EveryTrackingIdIsDrawn | app/shipping/providers/usps.py:29-33 | Every string of that layout is produced by some draw. |
| UspsProvider.IgnoresAssociated | app/shipping/providers/usps.py:28-34 | The result does not depend on the shipment id. |
| SqlLike.Lower | app/routers/shipments.py:79-89 | Lower-casing keeps the length and maps every character through ASCII lower-casing. |
| SqlLike.Like | app/routers/shipments.py:79-89 | A pattern with no `%` or `_` matches exactly the text equal to it. As in SQLite's `LIKE` without an `ESCAPE` clause, a backslash is an ordinary character. |
| SqlLike.ILike | app/routers/shipments.py:79-89 | Against a pattern with no special character, `ILIKE` holds iff the two lower-cased strings are equal. |
| SqlLike.LiteralPrefixMatch | app/routers/shipments.py:79-89 | A wildcard-free pattern followed by `%` matches exactly the texts it prefixes. |
| SqlLike.LeadingPercentMatch | app/routers/shipments.py:79-89 | A leading `%` matches iff the rest matches some suffix. |
| SqlLike.WrappedLiteralIsContains | app/routers/shipments.py:79-89 | `LIKE '%x%'` for wildcard-free x holds iff x occurs in the text. |
| SqlLike.ILikeWrappedIsCaseInsensitiveContains | app/routers/shipments.py:79-89 | `ILIKE '%x%'` for wildcard-free x holds iff lower(x) occurs in lower(text). |
| SqlLike.SearchTextFindsItself | app/routers/shipments.py:79-89 | A wildcard-free search text, backslashes included, finds a stored value equal to it. |
| ShipmentQuery.MatchesMeaning | app/routers/shipments.py:71-89 | For wildcard-free search texts, a row passes iff provider and status match exactly when given, and each search text occurs case-insensitively in its column. |
| ShipmentQuery.FilterKeepsMatches | app/routers/shipments.py:71-89 | The filter keeps each matching row as often as it is stored, and no other row. |
| ShipmentQuery.InsertKeepsRows | app/routers/shipments.py:91-94 | Insertion adds exactly the new row. |
| ShipmentQuery.InsertKeepsOrder | app/routers/shipments.py:91-94 | Insertion into an ordered list keeps it ordered. |
| ShipmentQuery.SortOrdersRows | app/routers/shipments.py:91-94 | The sort orders by `created_at` (descending or ascending) and is a permutation. |
| ShipmentQuery.PageIsSlice | app/routers/shipments.py:96 | A page holds only rows of the list, in its order. A non-negative `limit` bounds its size. A negative `limit` keeps every row after the offset, as SQLite does, and a negative offset skips nothing. |
| ShipmentQuery.PagesConcatenate | app/routers/shipments.py:96 | Two adjacent pages concatenate to the page spanning both. |
| ShipmentQuery.GetShipments | app/routers/shipments.py:44-98 | Only stored rows that pass the filters, in the requested `created_at` order. A non-negative `limit` bounds their number. |
| ShipmentQuery.FirstPageIsComplete | app/routers/shipments.py:44-98 | With no positive offset, and a limit that is negative or as large as the table, every matching row is returned, each as often as it is stored. |
| ShipmentQuery.ConsecutivePages | app/routers/shipments.py:96 | When no two matching rows share a `created_at`, two queries with the same filters and order, on adjacent pages of non-negative size and position, together give the combined page. |
| ShipmentsRouter.GetShipment | app/routers/shipments.py:28-41 | The stored row iff the id is present, otherwise 404 "Shipment not found.". |
| ShipmentsRouter.GetShipmentStatus | app/routers/shipments.py:101-111 | 404 for an unknown id. Otherwise the carrier's status query, which raises NotImplementedError for every carrier. |
| ShipmentsRouter.StatusUpdateFrame | app/routers/shipments.py:137-138 | An update changes only the status message and its update time. |
| ShipmentsRouter.UpdatesCanRepeat | app/routers/shipments.py:125-138 | The reservation survives an update, so the reserving employee may update again. |
| ShipmentsRouter.UpdateShipmentStatus | app/routers/shipments.py:114-142 | Checks in order: 404 if unknown; 400 unless the caller holds the reservation; 400 if not internal. Each failure leaves the table unchanged. Success iff all guards pass. Then only that row changes, to the new message and time, and its new status is returned. |
| ShipmentStore.ShipmentTable.Update | app/routers/shipments.py:137-140 | Writing a row changes that shipment's row and no other. |
| InternalRouter.GetOpenShipments | app/routers/internal.py:27-43 | Open shipments are stored rows that are PENDING and internal, oldest first. A non-negative `limit` bounds their number. |
| InternalRouter.OpenShipmentsAreAllListed | app/routers/internal.py:34-42 | With no positive offset, and a limit that is negative or as large as the table, every pending internal shipment is listed. |
| InternalRouter.ClaimFrame | app/routers/internal.py:62-78 | A claim changes only the status message, its update time and the reservation. |
| InternalRouter.ClaimedIsNotOpen | app/routers/internal.py:64-68 | A claimed shipment is not open, so it leaves the open list and cannot be claimed again. |
| InternalRouter.ClaimantMayUpdate | app/routers/internal.py:67-73 | After a claim of a shipment that held no reservation, the claimant, and nobody else, passes the status-update guards. |
| InternalRouter.PendingUpdateReopens | app/routers/shipments.py:137-138 | Updating an internal shipment's status to PENDING makes it open again. |
| InternalRouter.ClaimShipment | app/routers/internal.py:46-78 | Checks in order: 404 if unknown; 400 "Shipment is not internal."; 400 "Shipment is not pending.". Each failure leaves the table unchanged. Success iff the shipment is pending and internal. Then only that row changes: SHIPPED at the clock reading, reserved for the caller under the same shipment id. The new row is returned. |
| Profile.NewAccountProfile | app/auth/profile.py:32-55 | Errors in source order: missing oid, then a non-text oid, then an unparsable oid, then missing roles for a user, then non-text roles, then missing or non-text `scp`. Otherwise a profile whose id parses from oid. Its names are copied from the claims and `is_user` is `extension_uflag == True`. Its roles are at least one part and join back with ',' to the claim (bot without the claim: none). Its scopes are at least one part and join back with ' ' to `scp`. No part holds its separator, so with `Strings.SplitJoin` the roles and scopes are exactly the splits. |
| Profile.UserClaimsProfile | app/auth/profile.py:32-55 | A user token with oid, roles, `scp` and `extension_uflag` True gives exactly the profile with the split roles and scopes and no names. |
| Profile.ExampleRoles | tests/conftest.py:46 | "Admin,Test" splits into ["Admin", "Test"]. |
| Profile.Display | app/auth/profile.py:57-58 | The rendered first name, then one space, then the rendered last name. |
| Profile.DisplaySplitsIntoNames | app/auth/profile.py:57-58 | The display string is first name, space, last name: for names without spaces, splitting it gives them back. |
| Strings.Split | app/auth/profile.py:50 | `str.split(sep)` gives at least one part, none containing the separator. |
| Strings.JoinSplit | app/auth/profile.py:50 | Joining the parts with the separator gives back the text. |
| Strings.SplitJoin | app/auth/profile.py:55 | Splitting a join of separator-free parts gives the parts back. |
| Uuids.ParseToString | app/auth/profile.py:35 | `UUID(str(u)) == u`. |
| Uuids.Parse | app/auth/profile.py:35 | Every failure is a ValueError, and a text shorter than 32 characters always fails. |
| Uuids.ToString | app/shipping/providers/internal.py:29 | With its hyphens removed, `str(u)` is the 32 lower-case hexadecimal digits of u, in order. |
| Uuids.ToStringLayout | app/shipping/providers/internal.py:29 | `str(u)` has 36 characters with hyphens exactly at 8, 13, 18 and 23. |
| Uuids.ToStringInjective | app/shipping/providers/internal.py:29 | Distinct ids have distinct string forms. |
| AuthDependencies.GetProfile | app/auth/dependencies.py:13-21 | KeyError without a stored profile entry. 500 "Could not find profile." when it is None. Otherwise the stored profile. |
| AuthDependencies.AnyIn | app/auth/dependencies.py:42 | `any(r in have for r in required)`. |
| AuthDependencies.AllIn | app/auth/dependencies.py:66 | `all(s in have for s in required)`. |
| AuthDependencies.HasRoles | app/auth/dependencies.py:24-34 | ValueError "Roles must be provided." iff no roles are given. |
| AuthDependencies.HasScopes | app/auth/dependencies.py:53-62 | ValueError "Scopes must be provided." iff no scopes are given. |
| AuthDependencies.CheckRoles | app/auth/dependencies.py:36-48 | A bot always passes. A user passes iff some required role is among its roles, and otherwise gets 403. |
| AuthDependencies.CheckScopes | app/auth/dependencies.py:64-72 | Passes iff every required scope is among the profile's scopes, bots included, and otherwise 403. |
| AuthDependencies.MoreScopesStillPass | app/auth/dependencies.py:66 | Giving a profile more scopes never turns a pass into a 403. |
| AuthDependencies.MoreRequiredScopesStillRefuse | app/auth/dependencies.py:66 | Requiring more scopes never turns a 403 into a pass. |
| AuthDependencies.RoleCheckIsMonotone | app/auth/dependencies.py:42 | More roles on the profile, or more accepted roles, never turn a pass into a 403. |

## Left out

Where the code and its surroundings disagree, the model follows the code and notes the difference here. The shipment row of the delivery loop is modelled both as written and as evidently intended (see "## Findings").

- `Status` in `app/shipping/enums.py` has no PENDING member, yet the routers use `Status.PENDING`. The model adds `Pending`; as written, those lines would raise AttributeError.
- The carrier classes do not override the abstract `create_shipment` and `get_estimated_delivery_date`, so instantiating them would raise. The model keeps only what each class defines: its constants, `get_shipment_status` and `create_random_id`.
- `get_delivery_time` is called but defined nowhere. Transit times per (chunk, carrier) are inputs, each below `timedelta.max`. `get_warehouse_chunks`, `get_warehouse`, `remove_warehouse_stock` and `add_warehouse_stock` are defined nowhere either. Chunks and warehouse addresses are inputs. `create_shipment` (app/shipping/shipment.py:12-18) hands the request to the chosen carrier's `create_shipment`, which no carrier class overrides (see the line above), so creation results are outcome values.
- The stock allocator that forms the chunks is not modelled, because its source is not shown.
- Delivery.TimedeltaMax: `timedelta.max` is represented by 10^9 days in seconds, the least whole second above it. Comparisons against it are exact for whole-second durations.
- Datetime overflow when adding a duration to a clock reading is not modelled.
- `create_delivery_shipments` creates no shipments after its guard. The model has only its guard.
- Stock.Inventory.RemoveWarehouseStock: a removal that raises is assumed to leave the levels unchanged. An `add_warehouse_stock` that raises during the rollback is not modelled, because rollback adds are assumed to succeed.
- Stock levels are a map in which a missing key reads as 0. Restoration is stated per key as level equality, since adding back can create a key at level 0.
- `CreateShipmentRequest` is built with an `order_id` that the model does not declare; pydantic ignores the extra field. The model's request has no order id.
- Orders.CreateOrderReturn: the creation result and commit outcome are inputs. The return's shipment row takes its status from the created shipment's status. The code instead hands the dumped status, a plain mapping, to `schemas.Shipment.status`, which is a relationship (app/database/schemas.py:60). The ORM most likely rejects that mapping, so as written no return would be stored. The ORM's constructor is not part of this model, so the model stores the row the code evidently intends.
- `db.rollback()` is not modelled beyond "nothing is stored".
- Orders.CreateOrderDelivery: on an SLA miss, the 400's detail is the mapping `{"error": "Cannot meet SLA", "breakdown": ...}` (app/routers/orders.py:68-72). The model keeps only the `"error"` text and drops the breakdown from the error. The breakdown is the method's own `breakdown` parameter, so a caller already holds it.
- Orders.Excluding: the router passes `exclude=["items"]`, a list, where pydantic types `exclude` as a set or a mapping of field names. The model reads the list as the set of its names, and the corrected call excludes the set `{"items", "status"}`.
- The ORM's query construction is not modelled. The `delivery_id` and `user_id` filters of `get_shipments` are left out, because they need joins and the database's text form of a UUID.
- ShipmentQuery.SortOrdersRows: SQL leaves the order of equal `created_at` values unspecified, and it may differ from one query to the next. The model fixes one order, an insertion sort. Its other lemmas hold for any order of ties. ShipmentQuery.ConsecutivePages compares two separate queries, so it requires the matching rows' creation times to be distinct.
- Queries follow the configured SQLite default (app/database/__init__.py:13-14, app/database/connection.py:8): a negative `limit` means no limit, a negative `offset` skips nothing, and `LIKE` has no escape character. A `DATABASE_URL` naming another database is not modelled; PostgreSQL, for one, refuses negative values and reads a backslash as an escape.
- Case-folding in `ILIKE` is ASCII only.
- `get_nearest_warehouse`'s geocoding and geodesic distance are an abstract function from address to natural miles.
- `get_nearest_warehouse` is modelled on the warehouse list it reads.
- InternalRouter.ClaimShipment: a claim inserts a `ShippingEmployeeReservation` row and never deletes an earlier one. The model keeps one reservation per shipment, and a claim replaces it. The two differ when a claimed shipment is set back to PENDING and claimed again by another employee. The source then holds two reservation rows for it. `Shipment.reservation` is one-valued (app/database/schemas.py:68-69), so it loads one of them, most likely the earlier one. The model gives the new claimant's. This is why InternalRouter.ClaimantMayUpdate requires a shipment without a reservation. The reservation table's key is `employee_id` (app/database/schemas.py:207), so a second claim by the same employee would fail at commit. Commit failures on a claim and on a status update are not modelled.
- `ShipmentStatusPatchRequest` is not defined among the models. The import at app/routers/shipments.py:22-23 would raise ImportError, and so would app/routers/internal.py, which imports `get_shipments` from that file at line 20. The model takes the routers as loaded, and the update takes only the new status message.
- `get_order_deliveries` and `get_order_returns` are plain queries and are not modelled.
- Profile: claim values are JSON values. JSON integers are `Number`. Arrays, objects and JSON numbers that parse as floats (those with a fraction or an exponent) are `Other`, carrying Python's `str` of the value. A float equal to 1, such as `1.0` or `1e0`, renders as "1.0" and equals True, so `extension_uflag` 1.0 marks a user. `UUID(...)`'s acceptance of braces, `urn:uuid:` prefixes and hyphens anywhere is modelled; its `int(..., 16)` leniency toward a `0x` prefix, a sign, underscores and surrounding whitespace is not.
- Token verification, key fetching and request plumbing that put the profile into the request scope are not modelled.

## Findings

| source | as written | input that shows it | evidently intended | confidence | as-written member | corrected member |
|---|---|---|---|---|---|---|
| app/routers/orders.py:99-106 | The shipment row is built from `**shipment.model_dump(exclude=["items"])` plus an explicit `status=` keyword. The dump still holds a `status` key, so Python raises TypeError for a repeated keyword argument. Every delivery with at least one chunk then rolls back (Orders.CreateOrderDelivery with the `AsWritten` construction). | Any delivery that can meet its SLA and has at least one chunk whose removal and shipment creation succeed. | Exclude `status` from the dump as well, `exclude={"items", "status"}`, so the row carries the explicit PENDING status. | likely; not executed | Orders.DuplicateStatusRaises | Orders.ExcludingStatusBuilds |

# Restaurant back office: a Dafny model of the client-side bookkeeping

This project models the client side of a restaurant and catering back office, a
React dashboard over a REST API. Administrators manage dishes, menus (one of them the
"menu of the day") and the day's orders, with their paid and served flags. Users edit
their profiles, register, reset a password and sign in with a stored JWT.

The model covers the logic the screens run between the API and what they show:

- the derived views: search, the salade / dessert / other classification of dishes by name, per-group sorting, menus of the day first, today's orders only;
- the local reconciliation after a load, a delete, a bulk price change, a status change or an added or removed dish;
- the transient selections: chosen dishes and quantities, rows of a new menu, expanded orders, changed fields;
- the form checks and the request bodies they build;
- the messages each failure produces;
- the pages of unpaid orders and of orders by date;
- the authentication context's token handling.

Each screen is one module, named after its component. A component's React state is
a `class` whose fields are the `useState` variables. Each handler is a `method` that
writes exactly the fields it sets, as its `modifies` clause says. Derived values are
functions, with lemmas relating them to independent definitions.

What the browser or the server decides is handed to the methods as parameters:

- how each HTTP call ended: a status and body, or a failure of a given kind;
- the current time;
- the JWT decoder;
- today's date;
- the browser's number parsing and formatting.

Shared modules:

- `Wrappers`: `Option`.
- `Text`: the JavaScript string built-ins the screens use, such as `includes`, ASCII `toLowerCase`/`toUpperCase`, `trim`, `replace`, `parseInt` and the price sanitiser.
- `Seqs`: `filter`, `map` and a stable insertion sort standing for `Array.prototype.sort`.
- `Http`: call outcomes, failures and JSON body shapes.
- `Forms`: `FormData` as a list of entries.
- `Ui`: the snackbar.
- `Catalog`: the dish record and its name keywords.
- `ProfileRules`: the profile form that the profile editor and the user page's edit panel share, and the load error text that the read-only view and the profile card share.

The order status service sends its request as the PATCH body unchanged
(src/services/order-status-service.ts:16-20), so `OrderStatusService.UpdateOrderStatusDto`
is both the request and the body; `OrderStatusService.OneFlagEach` states the four shapes
the service's shortcuts send.

## Model

| member | source | states |
|---|---|---|
| Text.Trim | src/components/AddDishForm.tsx:124-131 | `trim()` is empty exactly when the text is all white space, and otherwise starts and ends with a non-space |
| Text.KeepPriceChars | src/components/DishTable.tsx:108 | `replace(/[^0-9,]/g, "")` keeps only digits and commas and never lengthens the text |
| Text.KeepPriceCharsCounts | src/components/DishTable.tsx:108 | every digit and comma survives the sanitiser as often as it occurs |
| Text.KeepPriceCharsIdempotent | src/components/DishTable.tsx:108 | sanitising twice is sanitising once |
| Text.ReplaceFirst | src/components/DishUpdateForm.tsx:56 | `replace` with a one-character pattern changes only the first occurrence, keeping the length |
| Text.PriceTextRoundTrip | src/components/DishUpdateForm.tsx:52-56 | price text of digits and commas, sent with a dot and shown with a comma, reads as before |
| Text.LexLeTotal | src/components/DishTable.tsx:247 | the name order standing for `localeCompare` relates every two names |
| Text.LexLeTransitive | src/components/DishTable.tsx:247 | the name order chains |
| Text.ParseIntToString | src/components/AddMenuComponent.tsx:380 | `parseInt` reads back the decimal rendering of every integer |
| Text.ParseIntOrOne | src/components/AddMenuComponent.tsx:380 | `parseInt(text) \|\| 1` is never 0: a non-zero number is kept, and both `NaN` and 0 give 1 |
| Http.OrElse | src/components/T.tsx:154 | `a \|\| b` on text: a present non-empty `a`, else `b` |
| Http.Property | src/components/MenuTable.tsx:142 | a property is found exactly when some entry has that key, and then it is that entry's value |
| Http.FirstArray | src/components/AddMenuComponent.tsx:118-123 | the first array-valued property in enumeration order, and none exactly when no property is an array |
| Http.ScanForArray | src/components/AddMenuComponent.tsx:118-123 | the `for...in` loop with `break` finds the first array-valued property, or no dishes |
| Http.UnwrapArray | src/components/AddMenuComponent.tsx:108-127 | the step-by-step unwrap gives `$values`, else the bare array, else the first array property, else no dishes |
| Http.Unwrapped | src/components/AddDishToMenu.tsx:75 | a list body yields its list exactly when it is not `null`; `null` gives the `TypeError` of reading `$values` |
| Seqs.FilterMembership | src/components/DishTable.tsx:215 | `filter` keeps an element exactly when it is in the input and passes the test |
| Seqs.FilterCounts | src/components/DishTable.tsx:215 | `filter` keeps each passing element as often as it occurs and drops the others |
| Seqs.SortSorted | src/components/DishTable.tsx:244 | `sort` with a total preorder yields a sorted sequence |
| Seqs.SortMembership | src/components/DishTable.tsx:244 | `sort` neither adds nor drops an element |
| DishTable.GetDishType | src/components/DishTable.tsx:386-394 | salade exactly when the upper-cased name contains SALADE; dessert exactly when it contains DESSERT but not SALADE; other exactly when it contains neither |
| DishTable.DishLeTotalPreorder | src/components/DishTable.tsx:243-253 | both comparators of `sortDishes` (name and price) are total preorders, so the sort is well defined |
| DishTable.SearchStepSpec | src/components/DishTable.tsx:208-220 | the search keeps a dish exactly when the term is empty or the lower-cased name or present description contains the lower-cased term, with its multiplicity |
| DishTable.TypeStepSpec | src/components/DishTable.tsx:223-233 | the type filter keeps a dish exactly when the filter admits it ("all" admits every dish), with its multiplicity |
| DishTable.DeriveViewBlocks | src/components/DishTable.tsx:236-257 | the view is the SALADE group, then the DESSERT group, then the rest, each block sorted by the chosen comparator and a permutation of its group |
| DishTable.DeriveViewCounts | src/components/DishTable.tsx:208-257 | a dish is in the view as often as it passes search and type filter, times the number of keyword groups it falls in (two for a name with both keywords) |
| DishTable.SelectedCount | src/components/DishTable.tsx:208-233 | search then type filter keep a dish with its multiplicity when it passes both, and drop it otherwise |
| DishTable.GroupedCounts | src/components/DishTable.tsx:267-274 | the unsorted grouping counts each dish once per keyword group it falls in |
| DishTable.DishTypeAndGroups | src/components/DishTable.tsx:236-240 | the exclusive type agrees with the overlapping groups except that a name with both keywords is typed salade yet lies in the dessert group too |
| DishTable.OnePerGroup | src/components/DishTable.tsx:236-257 | with one dish per group listed salade, dessert, other, the view keeps them in that order whatever the sort order |
| DishTable.PriceSortIsPerGroup | src/components/DishTable.tsx:243-257 | sorting by price orders only within groups: a dearer salade still comes before a cheaper dessert |
| DishTable.OfTypeDisjoint | src/components/DishTable.tsx:401-403 | no name belongs to two categories of `getDishType` |
| DishTable.Reprice | src/components/DishTable.tsx:418-423 | the local update keeps the list's length |
| DishTable.RepriceSpec | src/components/DishTable.tsx:418-423 | exactly the dishes of the category get the new price; every other field of every dish is unchanged |
| DishTable.RepriceIdempotent | src/components/DishTable.tsx:418-423 | applying the same price change twice equals applying it once |
| DishTable.KindAverage | src/components/DishTable.tsx:462-469 | the category average is 0 for an empty category and otherwise times the count gives the sum of the prices |
| DishTable.RepriceCount | src/components/DishTable.tsx:418-423 | repricing keeps every name, so the number of dishes in any category is unchanged |
| DishTable.RepriceSumSame | src/components/DishTable.tsx:418-423 | after repricing, the category's prices sum to its count times the new price |
| DishTable.RepriceSumOther | src/components/DishTable.tsx:418-423 | a disjoint category keeps its price sum |
| DishTable.RepriceAverageSame | src/components/DishTable.tsx:418-423 | after a change the category's average, which its price dialog shows next, is the new price |
| DishTable.RepriceAverage | src/components/DishTable.tsx:462-469 | for any name test, the mean of the repriced dishes is the new price |
| DishTable.RepriceAverageOther | src/components/DishTable.tsx:418-423 | the averages of the other categories are unchanged |
| DishTable.WithoutSpec | src/components/DishTable.tsx:324 | after a delete no dish has that id, and every dish with another id keeps its multiplicity |
| DishTable.DeletedNotInView | src/components/DishTable.tsx:322-334 | the deleted id never reappears in a derived view, whatever the search, filter and order |
| DishTable.Targets | src/components/DishTable.tsx:401-413 | one PATCH per dish of the category |
| DishTable.TargetsSpec | src/components/DishTable.tsx:401-413 | a PATCH is sent for an id exactly when a dish of the category has it |
| DishTable.FetchDishes | src/components/DishTable.tsx:68-82 | success exactly when the body is an object whose `$values` is an array, and then that array; a `null` body gives the `TypeError` of reading `$values`; any other body gives the invalid-format error |
| DishTable.DishTableScreen.constructor | src/components/DishTable.tsx:164-188 | the initial state: empty lists, loading, no error, closed dialogs, default search, filter and order |
| DishTable.DishTableScreen.RecomputeView | src/components/DishTable.tsx:208-258 | the view becomes the derivation of the list, the search term, the type filter and the sort order |
| DishTable.DishTableScreen.LoadDishes | src/components/DishTable.tsx:260-283 | a well-formed list replaces the dishes and the view becomes its unsorted grouping; a failed request, a `null` body and a malformed body each keep both lists and set "Erreur: " and their own message; loading ends false |
| DishTable.DishTableScreen.HandleDeleteClick | src/components/DishTable.tsx:317-320 | remembers the dish and opens the confirmation |
| DishTable.DishTableScreen.HandleDeleteSuccess | src/components/DishTable.tsx:322-347 | the dish is dropped locally, the view regrouped unsorted, the confirmation names the deleted dish, and the dialog closes |
| DishTable.DishTableScreen.OpenPriceDialog | src/components/DishTable.tsx:555-588 | while a bulk change runs nothing changes; otherwise only the category's dialog opens |
| DishTable.DishTableScreen.AveragePrice | src/components/DishTable.tsx:462-469 | the average of an empty category is 0; otherwise the average times the category's count is the sum of its prices |
| DishTable.DishTableScreen.BeginPriceUpdate | src/components/DishTable.tsx:397-413 | the buttons are disabled; the patched ids are those of the category's dishes, in list order, and each PATCH body holds only `dishPrice`, the caller-supplied `newPrice.toString()` |
| DishTable.DishTableScreen.FinishPriceUpdate | src/components/DishTable.tsx:415-459 | only when every PATCH succeeded is the list repriced, regrouped and the dialog closed; otherwise the list is kept and the error shown; `updatingPrices` ends false |
| DishTable.DishTableScreen.CloseDialog | src/components/DishTable.tsx:1202-1218 | only the named dialog closes |
| DishTable.PriceUpdateDialog.constructor | src/components/DishTable.tsx:95-96 | the field shows the price with a decimal comma, or is empty for a zero price |
| DishTable.PriceUpdateDialog.OnOpenChange | src/components/DishTable.tsx:98-105 | an open dialog with a non-zero price shows it with a decimal comma, otherwise the field is emptied; the error is cleared |
| DishTable.PriceUpdateDialog.HandlePriceChange | src/components/DishTable.tsx:107-110 | the field keeps exactly the digits and commas of the typed text |
| DishTable.PriceUpdateDialog.HandleSubmit | src/components/DishTable.tsx:112-125 | an empty field or a non-positive or unparsable number sets its error and submits nothing; otherwise the parsed price is submitted |
| MenuTable.NormaliseDish | src/components/MenuTable.tsx:159-166 | a dish line keeps its id, gets "Nom non disponible" exactly when its name is missing or empty, and a missing quantity becomes 0 |
| MenuTable.NormaliseMenu | src/components/MenuTable.tsx:157-175 | a menu keeps its id, is collapsed, gets "Menu <id>" for a missing or empty description, is of the day only for a true flag, and has no dishes when `dishes.$values` is missing |
| MenuTable.NormaliseAll | src/components/MenuTable.tsx:157-175 | every menu of the body is normalised, in the body's order |
| MenuTable.NormaliseRaw | src/components/MenuTable.tsx:157-175 | normalisation is the identity on a collapsed row that already has a description and dish names |
| MenuTable.Extracted | src/components/MenuTable.tsx:139-146 | an array body is used as is, an object's array `$values` is used, and anything else gives no menus |
| MenuTable.ExtractedNothing | src/components/MenuTable.tsx:142-146 | an object without an array `$values` holds no menus |
| MenuTable.ExtractedEnvelopes | src/components/MenuTable.tsx:142-146 | the bare array and the `$values` envelope of the same menus read back as those menus |
| MenuTable.FetchErrorMessage | src/components/MenuTable.tsx:182-194 | the five error classes in order: timeout, network error, response with status, other axios error, non-axios error |
| MenuTable.StatusShown | src/components/MenuTable.tsx:187-188 | a failure with a response (and not a timeout or network error) shows "Erreur <status>: " first |
| MenuTable.MenuLeTotalPreorder | src/components/MenuTable.tsx:215-219 | the comparator (menu of the day first, then more dishes first) is a total preorder |
| MenuTable.DeriveMenusMembers | src/components/MenuTable.tsx:206-212 | a menu is in the view exactly when it is in the list and the term is empty or its lower-cased description contains the lower-cased term, with its multiplicity |
| MenuTable.DeriveMenusOrder | src/components/MenuTable.tsx:214-221 | no ordinary menu comes before a menu of the day, and menus with the same flag come by non-increasing dish count |
| MenuTable.ToggledSpec | src/components/MenuTable.tsx:225-232 | only the rows with that id change, and in them only `expanded`, which is negated |
| MenuTable.ToggledTwice | src/components/MenuTable.tsx:225-232 | toggling twice restores the list |
| MenuTable.ToggledView | src/components/MenuTable.tsx:206-232 | toggling the view in place agrees with deriving the view from the toggled list |
| MenuTable.WithoutMenuSpec | src/components/MenuTable.tsx:257-258 | after a delete no menu has that id and every other menu keeps its multiplicity |
| MenuTable.MenuTableScreen.constructor | src/components/MenuTable.tsx:104-118 | empty lists, loading, no error, empty search, no current menu, closed confirmation |
| MenuTable.MenuTableScreen.FetchMenus | src/components/MenuTable.tsx:121-198 | with no menus in the body both lists are emptied; otherwise both become the normalised menus; a failure keeps the lists and sets the classified error; loading always ends false |
| MenuTable.MenuTableScreen.RecomputeView | src/components/MenuTable.tsx:206-222 | the view becomes the filtered and sorted list |
| MenuTable.MenuTableScreen.SetSearchTerm | src/components/MenuTable.tsx:206-222 | the term is stored and the view derived from it |
| MenuTable.MenuTableScreen.ToggleExpand | src/components/MenuTable.tsx:225-232 | both lists are toggled, and a view that agreed with the derivation still does |
| MenuTable.MenuTableScreen.HandleDeleteClick | src/components/MenuTable.tsx:239-242 | remembers the menu and opens the confirmation |
| MenuTable.MenuTableScreen.ConfirmDelete | src/components/MenuTable.tsx:249-276 | without a current menu nothing changes; on success the id leaves both lists, the message names the menu and the dialog closes; on failure only the error snackbar changes |
| AddDishToMenu.SearchDishesSpec | src/components/AddDishToMenu.tsx:111-124 | a dish is shown exactly when it is available and the term is blank or its lower-cased name or description contains the lower-cased term, with its multiplicity |
| AddDishToMenu.SetQuantity | src/components/AddDishToMenu.tsx:171-179 | a quantity of at most 0 removes the entry, a positive one is stored, and every other entry is unchanged |
| AddDishToMenu.Clicked | src/components/AddDishToMenu.tsx:156-169 | a dish already in the menu changes nothing; otherwise a selected dish is dropped and an unselected one gets quantity 1 |
| AddDishToMenu.Incremented | src/components/AddDishToMenu.tsx:181-184 | the entry becomes its quantity plus one, a missing entry read as 1; other entries unchanged |
| AddDishToMenu.Decremented | src/components/AddDishToMenu.tsx:186-195 | above 1 the quantity goes down by one, otherwise the entry is removed; other entries unchanged |
| AddDishToMenu.HandlersKeepPositive | src/components/AddDishToMenu.tsx:159-195 | every handler keeps all stored quantities positive, so zero is never stored |
| AddDishToMenu.ClickTwice | src/components/AddDishToMenu.tsx:159-169 | clicking a dish outside the menu twice restores the selection |
| AddDishToMenu.IncrementThenDecrement | src/components/AddDishToMenu.tsx:181-195 | plus then minus restores a selected entry |
| AddDishToMenu.IncrementAbsent | src/components/AddDishToMenu.tsx:181-184 | plus on an unselected dish stores 2, and minus then leaves it at 1 |
| AddDishToMenu.SubmitErrorMessage | src/components/AddDishToMenu.tsx:144-149 | the "already in menu" message exactly for an axios error with status 400, the generic message otherwise |
| AddDishToMenu.AddDishToMenuDialog.constructor | src/components/AddDishToMenu.tsx:62-69 | empty lists and selection, loading, not submitting, no error |
| AddDishToMenu.AddDishToMenuDialog.Open | src/components/AddDishToMenu.tsx:103-109 | opening empties the selection |
| AddDishToMenu.AddDishToMenuDialog.FetchAvailableDishes | src/components/AddDishToMenu.tsx:71-84 | the body's `$values`, or the bare array, becomes both the available and the shown list; a failure or a `null` body keeps both and sets the error; loading ends false |
| AddDishToMenu.AddDishToMenuDialog.FetchMenuDishes | src/components/AddDishToMenu.tsx:86-100 | the body's `$values`, or the bare array, becomes the menu's dishes; an axios failure sets the invalid-id message; any other failure, and the `TypeError` of a `null` body, set the unknown-error message |
| AddDishToMenu.AddDishToMenuDialog.RecomputeView | src/components/AddDishToMenu.tsx:111-124 | the shown list becomes the search of the available dishes |
| AddDishToMenu.AddDishToMenuDialog.HandleDishClick | src/components/AddDishToMenu.tsx:159-169 | the selection becomes `Clicked` of the old one |
| AddDishToMenu.AddDishToMenuDialog.HandleQuantityChange | src/components/AddDishToMenu.tsx:171-179 | the selection becomes `SetQuantity` of the old one |
| AddDishToMenu.AddDishToMenuDialog.IncrementQuantity | src/components/AddDishToMenu.tsx:181-184 | the selection becomes `Incremented` of the old one |
| AddDishToMenu.AddDishToMenuDialog.DecrementQuantity | src/components/AddDishToMenu.tsx:186-195 | the selection becomes `Decremented` of the old one |
| AddDishToMenu.AddDishToMenuDialog.BeginSubmit | src/components/AddDishToMenu.tsx:126-138 | an empty selection sets its error and sends nothing; otherwise one POST per selected dish with its quantity, the error cleared and submitting set; with the button enabled (`!submitting && selectedDishes.size > 0`, AddDishToMenu.tsx:305) requests always go out |
| AddDishToMenu.AddDishToMenuDialog.FinishSubmit | src/components/AddDishToMenu.tsx:140-152 | success calls `onSuccess` then `onClose`; a failure calls nothing and sets the classified error; submitting ends false |
| OrdersByDate.TabMeaning | src/components/OrdersByDate.tsx:153-184 | the filter keeps the page and page size 10; tab 0 admits exactly the unpaid unserved orders, tab 1 the unserved, tab 2 the unpaid, tab 3 the paid and served, any other tab every order |
| OrdersByDate.BuildFilterParams | src/components/OrdersByDate.tsx:153-184 | the step-by-step construction yields the tab's filter |
| OrdersByDate.DatePart | src/components/OrdersByDate.tsx:125-140 | `split("T")[0]`: the longest prefix without a `T`, followed by a `T` or the end |
| OrdersByDate.CleanAll | src/components/OrdersByDate.tsx:127-138 | every order is cleaned, in order, a missing `dishes` becoming no dishes |
| OrdersByDate.TodayOrdersSpec | src/components/OrdersByDate.tsx:124-140 | an order is kept exactly when it is the cleaned form of an order of the page dated today; a missing `items` keeps none |
| OrdersByDate.TimestampOfToday | src/components/OrdersByDate.tsx:124-140 | an ISO timestamp of today passes the date test whatever its time part |
| OrdersByDate.WithStatusSpec | src/components/OrdersByDate.tsx:191-197 | only the orders with that id change, and in them only the named flag |
| OrdersByDate.WithStatusSame | src/components/OrdersByDate.tsx:191-197 | setting a flag to the value it already has changes nothing |
| OrdersByDate.ToggledExpand | src/components/OrdersByDate.tsx:89-94 | the order's expanded state is negated, a missing entry read as false; other entries unchanged |
| OrdersByDate.ToggleExpandTwice | src/components/OrdersByDate.tsx:89-94 | toggling twice restores every order's expanded state |
| OrdersByDate.OrdersByDateScreen.constructor | src/components/OrdersByDate.tsx:80-86 | no orders, tab 0, page 1, nothing expanded, more orders expected |
| OrdersByDate.OrdersByDateScreen.FetchOrders | src/components/OrdersByDate.tsx:96-151 | the list becomes today's cleaned orders and more are expected exactly when ten were kept, so the next button (OrdersByDate.tsx:404) is disabled exactly when fewer or more than ten were kept; a failure empties the list; loading ends false |
| OrdersByDate.OrdersByDateScreen.HandleTabChange | src/components/OrdersByDate.tsx:186-189 | the tab is stored and the page reset to 1 |
| OrdersByDate.OrdersByDateScreen.HandleStatusChange | src/components/OrdersByDate.tsx:191-197 | the list becomes `WithStatus` of the old list |
| OrdersByDate.OrdersByDateScreen.ToggleOrderExpand | src/components/OrdersByDate.tsx:89-94 | the map becomes `ToggledExpand` of the old map |
| OrdersByDate.OrdersByDateScreen.PreviousPage | src/components/OrdersByDate.tsx:398-399 | the page becomes max(page - 1, 1); the button is disabled (page 1) exactly when pressing it would leave the page unchanged |
| OrdersByDate.OrdersByDateScreen.NextPage | src/components/OrdersByDate.tsx:404 | the page goes up by one |
| DishUpdateForm.PriceForBackend | src/components/DishUpdateForm.tsx:55-56 | only the first comma becomes a dot; every other character is kept and the length is unchanged |
| DishUpdateForm.PayloadAt | src/components/DishUpdateForm.tsx:157-165 | the body's entry under any key: a text field only when touched, the price with its first comma made a dot, "Photo" only with a chosen file |
| DishUpdateForm.PayloadLookup | src/components/DishUpdateForm.tsx:158-165 | dishName, dishDescription and dishPrice are sent exactly when touched, and Photo exactly when a file was chosen |
| DishUpdateForm.PayloadKeys | src/components/DishUpdateForm.tsx:157-165 | the body has no key besides the three field names and "Photo", and at most four entries |
| DishUpdateForm.SanitisedPriceRoundTrip | src/components/DishUpdateForm.tsx:52-56 | a sanitised price sent with a dot and shown again with a comma comes back unchanged |
| DishUpdateForm.UpdateForm.constructor | src/components/DishUpdateForm.tsx:71-84 | empty fields for the dish id, no photo or previews, no messages, fetch pending, nothing touched |
| DishUpdateForm.UpdateForm.Open | src/components/DishUpdateForm.tsx:109-114 | opening clears the touched set, so the submit button (`loading \|\| fieldsChanged.size===0`, DishUpdateForm.tsx:262) starts disabled |
| DishUpdateForm.UpdateForm.FetchDishData | src/components/DishUpdateForm.tsx:86-107 | the fetched dish (first of `$values` or the body) fills the fields, missing texts becoming ""; a failure or an empty `$values` only sets the error; the fetch flag ends false |
| DishUpdateForm.UpdateForm.HandleChange | src/components/DishUpdateForm.tsx:116-125 | the name joins the touched set, so the submit button is enabled unless a save runs; the price keeps only digits and commas, other fields are stored as typed |
| DishUpdateForm.UpdateForm.HandleFileChange | src/components/DishUpdateForm.tsx:127-136 | the first file is stored and "Photo" joins the touched set; no file changes nothing |
| DishUpdateForm.UpdateForm.PreviewLoaded | src/components/DishUpdateForm.tsx:133 | the preview shows the data URL read |
| DishUpdateForm.UpdateForm.ResetForm | src/components/DishUpdateForm.tsx:138-146 | the texts are emptied keeping the dish id; photo, previews, messages and touched set are cleared |
| DishUpdateForm.UpdateForm.BuildPayload | src/components/DishUpdateForm.tsx:157-165 | the appends build exactly `Payload` of the fields, the touched set and the photo |
| DishUpdateForm.UpdateForm.HandleSubmit | src/components/DishUpdateForm.tsx:153-179 | the body is `Payload`; success sets the message and schedules the close only with `onSuccess`; failure sets the error; loading ends false |
| AddMenuComponent.DtoOfSpec | src/components/AddMenuComponent.tsx:206-215 | the menu sent carries the description and each row with a chosen dish as often as it occurs, and nothing else; it lists no dish exactly when no row has one |
| AddMenuComponent.RemoveAtSpec | src/components/AddMenuComponent.tsx:163 | removing a row keeps the earlier rows, shifts the later ones up by one, and an index out of range removes nothing |
| AddMenuComponent.SubmitErrorText | src/components/AddMenuComponent.tsx:237-243 | an axios error shows the server's non-empty message, else its own non-empty message, else the default; any other error the default |
| AddMenuComponent.AddMenuForm.constructor | src/components/AddMenuComponent.tsx:74-82 | empty description, one blank row, no dishes, no errors, no message, snackbar closed |
| AddMenuComponent.AddMenuForm.Open | src/components/AddMenuComponent.tsx:85-93 | opening empties the description, leaves one blank row and clears errors and message |
| AddMenuComponent.AddMenuForm.FetchDishes | src/components/AddMenuComponent.tsx:96-136 | the dishes become the unwrapped array of the body; a failure shows the error snackbar; the fetch flag ends false |
| AddMenuComponent.AddMenuForm.HandleDishChange | src/components/AddMenuComponent.tsx:138-149 | only that row's dish changes; choosing a dish (id above 0) removes that row's error, otherwise the errors are unchanged |
| AddMenuComponent.AddMenuForm.HandleQuantityChange | src/components/AddMenuComponent.tsx:151-155 | only that row's quantity changes |
| AddMenuComponent.AddMenuForm.HandleQuantityInput | src/components/AddMenuComponent.tsx:380 | the row takes `parseInt(text) \|\| 1`, so the stored quantity is never 0 |
| AddMenuComponent.AddMenuForm.AddDishSelection | src/components/AddMenuComponent.tsx:157-159 | one blank row is appended and the others are unchanged |
| AddMenuComponent.AddMenuForm.RemoveDishSelection | src/components/AddMenuComponent.tsx:161-171 | with several rows the row goes and only the error under that index is deleted; a single row is kept; there is always a row |
| AddMenuComponent.AddMenuForm.ValidateForm | src/components/AddMenuComponent.tsx:173-193 | the errors are exactly one message per row without a dish, and the form is valid exactly when some row has a dish |
| AddMenuComponent.AddMenuForm.HandleSubmit | src/components/AddMenuComponent.tsx:195-252 | an invalid form sends nothing; otherwise the menu of the chosen rows is sent; success shows the confirmation and schedules `onSuccess` and `onClose`; failure shows the error text; loading ends false |
| AddDishForm.Changed | src/components/AddDishForm.tsx:69-76 | the named field takes the value, the price keeping only digits and commas; the photo and the other fields stay |
| AddDishForm.ChangedIdempotent | src/components/AddDishForm.tsx:69-76 | typing the same text twice into a field leaves what the first change left |
| AddDishForm.CheckFields | src/components/AddDishForm.tsx:123-135 | the name error exactly for a blank name; the price error exactly for a non-blank name and a blank price; no error otherwise |
| AddDishForm.SanitisedPriceBlank | src/components/AddDishForm.tsx:123-135 | a sanitised price is blank exactly when it is empty |
| AddDishForm.SaladFlag | src/components/AddDishForm.tsx:145-146 | "true" exactly when the upper-cased name contains SALADE, "false" otherwise |
| AddDishForm.PayloadAt | src/components/AddDishForm.tsx:137-152 | the body's entry under every key: name, description, quantity "1", the salad flag, the price with a dot, the photo only if chosen |
| AddDishForm.PayloadLookup | src/components/AddDishForm.tsx:142-152 | the quantity is always "1", IsSalad is "true" exactly for a SALADE name, the price has its first comma made a dot, and DishPhoto is there exactly when a file was chosen |
| AddDishForm.DishForm.constructor | src/components/AddDishForm.tsx:57-67 | empty fields, no photo, no messages, not loading, no preview |
| AddDishForm.DishForm.HandleChange | src/components/AddDishForm.tsx:69-76 | the fields become `Changed` of the old ones |
| AddDishForm.DishForm.HandleFileChange | src/components/AddDishForm.tsx:78-90 | the first file becomes the photo; no file changes nothing |
| AddDishForm.DishForm.PreviewLoaded | src/components/AddDishForm.tsx:85-87 | the preview is the data URL read |
| AddDishForm.DishForm.ResetForm | src/components/AddDishForm.tsx:92-101 | the four fields, the preview and both messages are cleared |
| AddDishForm.DishForm.HandleClose | src/components/AddDishForm.tsx:108-115 | the form is reset, then `onClose` if given, else back a page when standalone, else nothing |
| AddDishForm.DishForm.BuildPayload | src/components/AddDishForm.tsx:137-152 | the appends build exactly `Payload` of the fields |
| AddDishForm.DishForm.Post | src/components/AddDishForm.tsx:154-174 | the body is sent; success shows the message and schedules `onSuccess` and the close, or the table page, or resets at once; failure sets the error |
| AddDishForm.DishForm.HandleSubmit | src/components/AddDishForm.tsx:117-178 | a failed check sets its error and sends nothing; otherwise the body is sent with the outcomes of `Post`; loading ends false |
| UpdateMenuAndAddDish.PickErrors | src/components/UpdateMenuAndAddDish.tsx:222-234 | the "new-dish" error is present exactly when no dish is picked (id 0 or below), and there is no error otherwise |
| UpdateMenuAndAddDish.DescriptionOnly | src/components/UpdateMenuAndAddDish.tsx:315-319 | the description-only save carries a negative dish id, quantity 0 and the description |
| UpdateMenuAndAddDish.Offered | src/components/UpdateMenuAndAddDish.tsx:494-497 | the selector offers no more dishes than are available, and none of them is already in the menu |
| UpdateMenuAndAddDish.OfferedSpec | src/components/UpdateMenuAndAddDish.tsx:494-497 | a dish is offered exactly when it is available and not in the menu, as often as it is available |
| UpdateMenuAndAddDish.Find | src/components/UpdateMenuAndAddDish.tsx:255-265 | `find` gives an available dish with that id, and nothing exactly when no available dish has it |
| UpdateMenuAndAddDish.WithoutDishSpec | src/components/UpdateMenuAndAddDish.tsx:193 | after the removal a line stays exactly when it was there with another id, and no line of the removed dish is left |
| UpdateMenuAndAddDish.RemovedIsOffered | src/components/UpdateMenuAndAddDish.tsx:494-497 | a removed available dish is offered again |
| UpdateMenuAndAddDish.AddedIsNotOffered | src/components/UpdateMenuAndAddDish.tsx:494-497 | a dish added to the menu is no longer offered |
| UpdateMenuAndAddDish.ServerErrorText | src/components/UpdateMenuAndAddDish.tsx:203-211 | a non-axios error gives the default; a string body gives the body; an object body its message or else the error's; no body the error's message or else the default |
| UpdateMenuAndAddDish.UpdateMenuDialog.constructor | src/components/UpdateMenuAndAddDish.tsx:87-96 | empty description, lists and errors, the blank pick, nothing loading, no message, snackbar closed with success severity |
| UpdateMenuAndAddDish.UpdateMenuDialog.Open | src/components/UpdateMenuAndAddDish.tsx:99-115 | the menu's description and dishes are copied, and the pick, the errors and the message reset |
| UpdateMenuAndAddDish.UpdateMenuDialog.FetchDishes | src/components/UpdateMenuAndAddDish.tsx:118-158 | success sets the unwrapped dish array; failure shows the loading error; fetching ends false |
| UpdateMenuAndAddDish.UpdateMenuDialog.HandleDishChange | src/components/UpdateMenuAndAddDish.tsx:160-169 | the pick takes the dish id; a positive id removes the "new-dish" error and leaves the others |
| UpdateMenuAndAddDish.UpdateMenuDialog.HandleQuantityChange | src/components/UpdateMenuAndAddDish.tsx:171-173 | the pick takes the quantity and keeps its dish |
| UpdateMenuAndAddDish.UpdateMenuDialog.ValidateForm | src/components/UpdateMenuAndAddDish.tsx:222-234 | the errors become `PickErrors` of the pick, and the form is valid exactly when a dish is picked |
| UpdateMenuAndAddDish.UpdateMenuDialog.HandleRemoveDish | src/components/UpdateMenuAndAddDish.tsx:175-219 | no dish id or no menu does nothing; otherwise the command names the menu and dish, success drops that dish's lines, failure keeps them and shows the server's error |
| UpdateMenuAndAddDish.UpdateMenuDialog.HandleAddDish | src/components/UpdateMenuAndAddDish.tsx:236-302 | validates first; an invalid pick or no menu sends nothing and keeps the lists, the pick, the message, the loading flag and the snackbar; otherwise sends the pick and the description; "already exists" names the dish and keeps the lists; success appends the found dish and resets the pick; failure shows the server's error |
| UpdateMenuAndAddDish.UpdateMenuDialog.HandleSubmit | src/components/UpdateMenuAndAddDish.tsx:304-350 | no menu does nothing; otherwise the description-only save is sent, success shows its message and schedules the close, failure shows the server's error |
| UnpaidOrders.Toggled | src/components/UnpaidOrders.tsx:95-105 | the toggled order's id is expanded exactly when it was not, and every other id keeps its state |
| UnpaidOrders.ToggledTwice | src/components/UnpaidOrders.tsx:95-105 | toggling an order twice restores the expanded set |
| UnpaidOrders.PreviousPageOf | src/components/UnpaidOrders.tsx:256 | `Math.max(prev - 1, 1)`: one page back, never below page 1 |
| UnpaidOrders.UnpaidOrdersScreen.constructor | src/components/UnpaidOrders.tsx:58-65 | no orders, page 1, a next page expected, nothing expanded, empty name filters |
| UnpaidOrders.UnpaidOrdersScreen.CurrentQuery | src/components/UnpaidOrders.tsx:70-77 | the request asks for the current page, two orders a page, with both name filters |
| UnpaidOrders.UnpaidOrdersScreen.FetchOrders | src/components/UnpaidOrders.tsx:67-93 | an empty page past the first steps back and keeps the orders; otherwise the page replaces them and a next page is expected, and its button (UnpaidOrders.tsx:268) shown, exactly when it holds two; a failure changes nothing; the page stays at 1 or above |
| UnpaidOrders.UnpaidOrdersScreen.ToggleOrder | src/components/UnpaidOrders.tsx:95-105 | the expanded set becomes `Toggled` of the old one |
| UnpaidOrders.UnpaidOrdersScreen.SetFirstName | src/components/UnpaidOrders.tsx:130 | the first-name filter takes the typed text |
| UnpaidOrders.UnpaidOrdersScreen.SetLastName | src/components/UnpaidOrders.tsx:138 | the last-name filter takes the typed text |
| UnpaidOrders.UnpaidOrdersScreen.Search | src/components/UnpaidOrders.tsx:144 | the search button goes back to page 1 |
| UnpaidOrders.UnpaidOrdersScreen.PreviousPage | src/components/UnpaidOrders.tsx:252-260 | the previous-page button moves one page back, never below 1; it is shown (page above 1) exactly when pressing it changes the page |
| UnpaidOrders.UnpaidOrdersScreen.NextPage | src/components/UnpaidOrders.tsx:268-276 | the next-page button moves one page on |
| UpdateMenu.FetchedMenu | src/components/UpdateMenu.tsx:112 | a plain body is the menu; a `$values` body names its first element, and no menu when `$values` is empty |
| UpdateMenu.FilteredAvailableSpec | src/components/UpdateMenu.tsx:247-252 | with no menu or no dish links every available dish is offered; otherwise a dish is offered exactly when it is available and not linked, as often as it is available |
| UpdateMenu.MenuDialog.constructor | src/components/UpdateMenu.tsx:95-105 | no menu, empty description and messages, no dishes or selection, not editing, both fetches loading, first tab |
| UpdateMenu.MenuDialog.FetchMenuData | src/components/UpdateMenu.tsx:108-121 | a body naming a menu sets it and its description, missing giving ""; an empty `$values` clears the menu and sets the load error; a failure sets the load error and keeps the menu; loading ends false |
| UpdateMenu.MenuDialog.FetchAvailableDishes | src/components/UpdateMenu.tsx:124-139 | success sets `$values` or the bare body; a failure or a `null` body sets the dishes error and keeps the list; loading ends false |
| UpdateMenu.MenuDialog.HandleTabChange | src/components/UpdateMenu.tsx:148-150 | the tab takes the chosen value |
| UpdateMenu.MenuDialog.HandleClose | src/components/UpdateMenu.tsx:152-161 | both messages cleared, editing off, no selection, first tab, and `onClose` called exactly when given |
| UpdateMenu.MenuDialog.StartEditingDescription | src/components/UpdateMenu.tsx:316 | the edit button turns editing on |
| UpdateMenu.MenuDialog.SetMenuDescription | src/components/UpdateMenu.tsx:339 | the description takes the typed text |
| UpdateMenu.MenuDialog.SelectDish | src/components/UpdateMenu.tsx:472 | the selection takes the chosen dish or none |
| UpdateMenu.MenuDialog.HandleUpdateDescription | src/components/UpdateMenu.tsx:163-193 | the body holds just `newDescription`; success shows its message, ends editing, copies the description into the local menu and calls `onSuccess` when given; failure sets the error and keeps the menu |
| UpdateMenu.MenuDialog.HandleAddDishToMenu | src/components/UpdateMenu.tsx:195-220 | no selection does nothing; otherwise the selected dish is posted; success clears the selection and refetches, with each of the refetch's three outcomes (a menu with its description, an empty `$values`, a failure) as `fetchMenuData` gives it; failure sets the error and keeps the menu, its description and the fetch flag; with the add button enabled (`!selectedDish \|\| loading` false, UpdateMenu.tsx:519) a dish is always posted |
| UpdateMenu.MenuDialog.HandleRemoveDishFromMenu | src/components/UpdateMenu.tsx:222-244 | success shows its message and refetches, with each of the refetch's three outcomes as `fetchMenuData` gives it; failure sets the error and keeps the menu, its description and the fetch flag; loading ends false |
| ProfileRules.EmailLikeInContext | src/components/EditProfile.tsx:120 | the email pattern is not anchored: text around a matching address still matches |
| ProfileRules.EmailLikeShape | src/components/EditProfile.tsx:120 | a matching address has an `@`, a later `.`, and at least five characters |
| ProfileRules.EmailLikeOfParts | src/components/EditProfile.tsx:120 | any three non-empty runs of non-space characters joined as `x@y.z` match the email pattern |
| ProfileRules.EmailError | src/components/EditProfile.tsx:116-125 | "required" exactly for an empty email, "invalid" exactly for a non-empty one the pattern rejects, no error exactly when the pattern matches |
| ProfileRules.PhoneError | src/components/EditProfile.tsx:128-133 | no error exactly for an empty phone or 8 to 15 digits, `+`, spaces, parentheses and dashes; otherwise the phone error |
| ProfileRules.PasswordError | src/components/EditProfile.tsx:136-144 | "too short" exactly for 1 to 5 characters, "mismatch" exactly for six or more differing from the confirmation, no error exactly for an empty or confirmed password |
| ProfileRules.UploadError | src/components/EditProfile.tsx:95-104 | "not an image" exactly when the type lacks `image`, "too large" exactly for an image over 5 MiB, no error otherwise |
| ProfileRules.PictureUrl | src/components/EditProfile.tsx:75-80 | a stored name other than empty or "null" becomes its uploads URL; otherwise the default picture |
| ProfileRules.ProfilePayloadAt | src/components/EditProfile.tsx:163-177 | the body's entry under every key: the names, email and phone always, the user id, password and picture only when given |
| ProfileRules.ProfilePayloadOptional | src/components/EditProfile.tsx:168-177 | the user id, `updatedPassword` and `profilePicture` are sent exactly when given, and the email as `emailAddress` |
| ProfileRules.UpdateErrorText | src/components/EditProfile.tsx:187 | `err.response?.data?.message \|\| default`: a non-empty server message, else the default |
| ProfileRules.ProfileForm.constructor | src/components/EditProfile.tsx:51-65 | every text empty, no image, file, message or error, loading and not submitting |
| ProfileRules.ProfileForm.LoadProfile | src/components/EditProfile.tsx:67-89 | success sets the picture URL and the four fields, missing giving ""; a failure sets the load error and keeps them; loading ends false |
| ProfileRules.ProfileForm.SetField | src/components/EditProfile.tsx:352-486 | the edited input's field takes the value and every other field stays |
| ProfileRules.ProfileForm.HandleFileChange | src/components/EditProfile.tsx:91-111 | no file changes nothing; a rejected file sets its error and keeps the old file; an accepted one is stored; a stored file always passes the check |
| ProfileRules.ProfileForm.PreviewLoaded | src/components/EditProfile.tsx:108 | the picture shows the data URL read |
| ProfileRules.ProfileForm.ValidateForm | src/components/EditProfile.tsx:113-147 | each of the three errors becomes its check's result, and the form is valid exactly when all three pass |
| EditProfile.Load | src/components/EditProfile.tsx:67-89 | with the page's own default picture: success sets the picture URL and the four fields, missing giving "", and keeps the error; a failure sets the load error and keeps the picture and the fields; loading ends false |
| EditProfile.HandleSubmit | src/components/EditProfile.tsx:149-196 | the checks run first; an invalid form or no user id sends nothing; otherwise the body with the user id is sent, success shows its message and schedules the way back, failure shows the server's message; submitting ends false |
| UserPage.ViewPictureUrl | src/components/UserPage.tsx:89-94 | a non-empty stored name becomes its uploads URL; otherwise the view's default |
| UserPage.ViewPictureAgreesWithForm | src/components/UserPage.tsx:89-94 | the view and the edit panel pick the same picture, except for the stored text "null", which only the view shows as a file |
| ProfileRules.LoadErrorText | src/components/UserPage.tsx:95-100 | an `Error` gives the load prefix and its message; anything else the unknown error; the profile card (src/components/UserProfile.tsx:80-84) says the same |
| UserPage.ProfileView.constructor | src/components/UserPage.tsx:69-72 | no user data or picture, loading, no error |
| UserPage.ProfileView.FetchUserData | src/components/UserPage.tsx:76-109 | success stores the user and its picture URL; a failure sets the error text and the default picture; loading ends false |
| UserPage.LoadEditPanel | src/components/UserPage.tsx:334-354 | with the social image as the default picture: success sets the picture URL and the four fields, missing giving "", and keeps the error; a failure sets the load error and keeps the picture and the fields; loading ends false |
| UserPage.HandleSubmit | src/components/UserPage.tsx:414-456 | the checks run first; an invalid form sends nothing; otherwise the body without a user id is sent, success shows its message and schedules the return to the view, failure the server's message |
| UserPage.Page.constructor | src/components/UserPage.tsx:846 | the page starts on the view |
| UserPage.Page.HandleEditProfile | src/components/UserPage.tsx:848-850 | the edit button opens the panel |
| UserPage.Page.HandleCancelEdit | src/components/UserPage.tsx:852-854 | cancelling returns to the view |
| ProfileManagement.SubmitError | src/components/ProfileManagement.tsx:53-59 | "email missing" exactly for an empty email, "passwords differ" exactly for a typed password unlike its confirmation, no error otherwise |
| ProfileManagement.NoLengthRule | src/components/ProfileManagement.tsx:57-59 | a short matching password passes this page, though the shared form's rules call it too short |
| ProfileManagement.ManagementPage.constructor | src/components/ProfileManagement.tsx:12-20 | every text empty, no image, error or file |
| ProfileManagement.ManagementPage.Load | src/components/ProfileManagement.tsx:22-37 | success sets the picture URL from `ProfilePicture` and the four fields, the email from `email`; a failure sets the load error and keeps them |
| ProfileManagement.ManagementPage.HandleFileChange | src/components/ProfileManagement.tsx:39-47 | the first chosen file is stored with no check; no file changes nothing |
| ProfileManagement.ManagementPage.PreviewLoaded | src/components/ProfileManagement.tsx:44 | the picture shows the data URL read from the chosen file |
| ProfileManagement.ManagementPage.HandleSubmit | src/components/ProfileManagement.tsx:49-85 | a failed check sets its error and sends nothing; otherwise the shared body without a user id is sent, success shows the chosen file and navigates, failure sets the update error |
| UserProfile.ShownPicture | src/components/UserProfile.tsx:68-77 | the stored value itself when it is non-empty and ends with a dotted image extension in any case; otherwise the default |
| UserProfile.CaseBlindExtensionShown | src/components/UserProfile.tsx:71 | the extension match ignores letter case: a name ending in a dot and any case variant of an image extension is shown as stored |
| UserProfile.NoExtensionIsDefault | src/components/UserProfile.tsx:71-77 | a stored name with no dot shows the default picture |
| UserProfile.ProfileCard.constructor | src/components/UserProfile.tsx:49-52 | no user data or picture, loading, no error |
| UserProfile.ProfileCard.FetchUserData | src/components/UserProfile.tsx:55-93 | success stores the user and `ShownPicture` of its picture; a failure sets the error text and the default picture; loading ends false |
| RegisterForm.WithField | src/components/T.tsx:116-121 | the named field of the form takes the value and every other field stays; a name the form does not have leaves it as it is |
| RegisterForm.DtoOf | src/components/T.tsx:145-152 | the request carries the names, phone and password, the email as `emailAddress`, and always registers a caterer |
| RegisterForm.SuccessText | src/components/T.tsx:154 | the body's non-empty message, else "Inscription réussie !" |
| RegisterForm.ErrorText | src/components/T.tsx:159-168 | with a server response, a string body as it is, else the body's non-empty message, else the default; without a response the default |
| RegisterForm.Register.constructor | src/components/T.tsx:89-101 | all six fields empty, no messages, not loading, and the passwords count as matching |
| RegisterForm.Register.HandleChange | src/components/T.tsx:116-128 | the fields become `WithField` of the old ones; editing a password field sets the flag from the new value and the other stored field; the flag always tells whether the two passwords agree |
| RegisterForm.Register.HandleRegister | src/components/T.tsx:134-172 | different passwords set the mismatch error and send nothing; otherwise the request is sent, success sets its message, clears the error and schedules the login page, failure sets the error text; loading ends false |
| RegisterForm.EnabledSubmitPassesCheck | src/components/T.tsx:369 | while the flag is kept, an enabled button always passes the submit's password check |
| ResetPasswordPage.ErrorText | src/components/ResetPasswordPage.tsx:157-164 | an `Error` gives its non-empty message, else the reset error; anything else the general error |
| ResetPasswordPage.ResetPage.constructor | src/components/ResetPasswordPage.tsx:91-103 | the token is the link's `token` parameter; both passwords and messages empty; not loading; the passwords count as matching |
| ResetPasswordPage.ResetPage.CheckToken | src/components/ResetPasswordPage.tsx:105-109 | a missing or empty token sets the "token missing" error; otherwise the error stays |
| ResetPasswordPage.ResetPage.UpdateMatch | src/components/ResetPasswordPage.tsx:111-117 | the flag is false exactly when a confirmation was typed and differs |
| ResetPasswordPage.ResetPage.HandlePasswordChange | src/components/ResetPasswordPage.tsx:111-121 | the new password takes the value and the flag is recomputed |
| ResetPasswordPage.ResetPage.HandleConfirmPasswordChange | src/components/ResetPasswordPage.tsx:111-125 | the confirmation takes the value and the flag is recomputed |
| ResetPasswordPage.ResetPage.HandleSubmit | src/components/ResetPasswordPage.tsx:131-168 | the mismatch check comes first, then the token check, either sending nothing; otherwise the token and password are sent; only status 200 shows success and schedules the login page; a failure sets the error text; loading ends false |
| ResetPasswordPage.EmptyConfirmationPassesFlag | src/components/ResetPasswordPage.tsx:332 | with a password typed and the confirmation empty the button is enabled, yet the submit stops at the mismatch check |
| ResetPasswordPage.FlagMatchesCheck | src/components/ResetPasswordPage.tsx:111-137 | once a confirmation is typed the flag is exactly the submit's equality check |
| AuthContext.ClaimOrEmpty | src/contexts/AuthContext.tsx:52-54 | a present claim as it is, a missing one "" |
| AuthContext.AuthProvider.constructor | src/contexts/AuthContext.tsx:32-36 | no claims, no access token, the flag false, and the given storage |
| AuthContext.AuthProvider.LoadStoredToken | src/contexts/AuthContext.tsx:39-73 | no stored token changes nothing; otherwise the token is kept and the flag set; a token that fails to decode fills in no claims; a decoded one fills in the three claims, and once expired (its `exp` in seconds below the clock in milliseconds over 1000) it is removed from storage and the flag cleared; from a signed-out start the flag ends set exactly when storage still holds the access token and it has not expired |
| OrderStatusService.UpdateOrderStatus | src/services/order-status-service.ts:13-31 | true exactly when the PATCH answered with status 200; any failure gives false |
| OrderStatusService.OneFlagEach | src/services/order-status-service.ts:34-63 | each of the four requests names its order and sets exactly one flag, to true for marking and false for unmarking |
| OrderStatusButtons.PaidPress | src/components/OrderStatusButtons.tsx:15-29 | the request sets only the paid flag, to the opposite of the shown state; the callback is made exactly on success, with the flipped value |
| OrderStatusButtons.ServedPress | src/components/OrderStatusButtons.tsx:32-46 | the request sets only the served flag, to the opposite of the shown state; the callback is made exactly on success, with the flipped value |
| OrderStatusButtons.PaidPressFlipsRow | src/components/OrderStatusButtons.tsx:18-28 | an accepted press flips the row's paid flag to the value sent and leaves every other order as it was |
| OrderStatusButtons.ServedPressFlipsRow | src/components/OrderStatusButtons.tsx:35-45 | an accepted press flips the row's served flag to the value sent and leaves every other order as it was |
| OrderStatusButtons.RejectedPressChangesNothing | src/components/OrderStatusButtons.tsx:26-45 | a rejected press leaves the order list as it was |

## Left out

- HTTP, storage and navigation: axios, `localStorage`, `FileReader`, `URL.createObjectURL`, `alert`, `navigate` and `setTimeout`. A call's outcome is a parameter; a scheduled navigation or callback is a returned flag.
- Console logging.
- Concurrency. `Promise.all` in the bulk price change and the multi-dish add is modelled only as "all succeeded" versus "some failed". Out-of-order responses and interleaved handlers are not modelled.
- React mechanics: effect scheduling and re-render timing. An effect is a method the caller runs when its dependencies change. Markup, theming and styling are not modelled.
- Floating point. Prices are exact reals. `parseFloat`, `toFixed` and `Number.toString` are caller-supplied values, and NaN appears only as a missing parse.
- `localeCompare` is replaced by lexicographic order on characters, proved a total preorder.
- Case mapping is ASCII only: `toLowerCase`/`toUpperCase` of non-ASCII letters are not modelled.
- String length and indexing are on characters, not UTF-16 code units.
- The JavaScript regex engine is not modelled. The email, phone, image-type and image-extension patterns are hand-written predicates with the same meaning as the patterns.
- `for...in` enumeration order is the order of the object's properties as given. JavaScript's integer-like keys first rule is not modelled.
- JSON objects are assumed to have no duplicate keys.
- In-place sorts of fresh group arrays are modelled as functions on sequences. Their results are the same, since each array is local to the call.
- AddMenuComponent.AddMenuForm.HandleDishChange: `updatedDishes[index].dishId = …` mutates the row objects, which the old state shares. The model replaces the row as a value, so the aliasing of the old rows is not captured.
- A `$values` property that is not an array is treated as no dishes, where a real client would go on with a non-array.
- The menu dialogs' dish fetches (`UpdateMenu`, `AddDishToMenu`) read a body that is an object with a `$values` array, a bare array or `null`. A body of another shape, which those screens would store as it is, is not modelled.
- UnpaidOrders.UnpaidOrdersScreen.FetchOrders: a body without `items` throws inside the `try`; it is passed in as a failure.
- RegisterForm.WithField: a field name the form does not have leaves the record unchanged. The source would add a new key that nothing reads.
- AddDishForm.Changed: the same for field names it does not have.
- DishUpdateForm.UpdateForm.HandleChange: a name outside the dish's fields leaves the dish data unchanged. The source would add a new key that nothing reads.
- The `TypeError` thrown on reading a property of `null` carries V8's message text; other JavaScript engines word it differently.
- AuthContext.AuthProvider.LoadStoredToken: an `exp` claim that is NaN or not a number is not modelled; a missing one never expires.
- ResetPasswordPage.ResetPage.HandleSubmit: the token also goes into the request path; the model records only the body.
- EditProfile.Load and UserPage.LoadEditPanel run only when the context has a token and an id. That guard is the caller's.
- The other `tokensAndIdExist` guards are the caller's as well.
- The show-password toggles, the dialogs' open and close plumbing, and the snackbar close are not modelled.
- The static components are not part of this model: `App.tsx`, `SideBar.tsx`, `Login.tsx`, `Logout.tsx`, `Register.tsx`, `ForgotPasswordPage.tsx`, `MenuOfTheDay.tsx`, `MenusList.tsx`, `MenuDetail.tsx` and `DishDeleteDialog.tsx`. Their work is network and rendering only; a confirmed delete in `DishDeleteDialog.tsx` reaches the model through the dish table's delete handler.

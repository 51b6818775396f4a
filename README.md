# Restaurant ordering clients: a Dafny model of the order logic

This project models the client-side order logic of a restaurant ordering platform. The platform has two React clients:

- **The customer menu.** It holds a cart and submits orders. It remembers the last order the browser placed, through two `localStorage` keys, and follows that order's status over the realtime socket. It also has a customisation dialog for items with option groups and a rating dialog.
- **The staff dashboard.** A manager or a cashier keeps a local list of orders. Socket events update that list, and a status-advance button moves an order one step forward. A looping alert sound announces new orders and waiter calls. The dashboard also holds the menu editor and the staff-account screen, and its shell routes by role.

Each core source file becomes one Dafny module. A component whose handlers update state in place becomes a `class` with those fields and `modifies` clauses. The list, map and record transformations under those handlers become functions. Lemmas relate those functions to one another. The modules are:

| module | file | source |
|---|---|---|
| `Wrappers` | `wrappers.dfy` | the `Option` type |
| `Orders` | `orders.dfy` | the order record, its status values and the forward map |
| `OrderFeed` | `order_feed.dfy` | the socket events and their reducer, shared by both dashboards; the alert sound |
| `ManagerBoard` | `manager_dashboard.dfy` | `admin-dashboard/src/components/ManagerDashboard.js` |
| `CashierBoard` | `cashier_dashboard.dfy` | `admin-dashboard/src/components/CashierDashboard.js` |
| `OrderBoard` | `order_view.dfy` | `admin-dashboard/src/components/OrderView.js` |
| `Accounts` | `accounts.dfy` | staff users and their permission flags |
| `Menu` | `menu.dfy` | menu items and option groups |
| `MenuEditor` | `menu_manager.dfy` | `admin-dashboard/src/components/MenuManager.js` |
| `StaffUsers` | `user_manager.dfy` | `admin-dashboard/src/components/UserManager.js` |
| `AdminApp` | `admin_app.dfy` | `admin-dashboard/src/App.js` |
| `CustomerMenu` | `customer_app.dfy` | `customer-menu/src/App.js` |
| `Customization` | `customization.dfy` | `customer-menu/src/components/CustomizationModal.js` |
| `RatingForm` | `rating_modal.dfy` | `customer-menu/src/components/RatingModal.js` |

Modelling conventions:

- **Server calls.** Every call to the server becomes a parameter of the method that makes it. The parameter holds the call's outcome: success with its data, or failure with the server's optional message, or with a 401 flag for the order fetch. A method returns the request it would send, or `None` when a guard stops it first.
- **Prices.** Prices are integers in minor units.
- **Storage.** `localStorage` is a `map<string, string>` field. Reads follow JavaScript truthiness: `getItem(k) || null` treats an empty string as missing.
- **Object key order.** The customisation dialog keeps its selection in a JavaScript object keyed by group id and option id. Its keys are modelled as an ordered sequence (`Customization.Selection`) with insertion-order semantics. A missing `_id` becomes the key `"undefined"`, as the template string would make it.

## Model

| member | source | states |
|---|---|---|
| Orders.NextStatus | admin-dashboard/src/components/ManagerDashboard.js:62-66 | only Pending and In Progress have a next status, and it is exactly one step later on Pending < In Progress < Completed, never Cancelled |
| Orders.StatusNameInjective | customer-menu/src/App.js:138-141 | distinct statuses have distinct wire spellings, so keeping the spelling in memory and storage loses nothing |
| Orders.TerminalByName | customer-menu/src/App.js:141 | comparing the spelling with "Completed" and "Cancelled" recognises exactly the terminal statuses |
| OrderFeed.AdvanceRequest | admin-dashboard/src/components/ManagerDashboard.js:59-68 | a request is produced exactly for Pending and In Progress; it names the given order and asks for a status one rank later, so it never asks for a backward step |
| OrderFeed.ReplaceById | admin-dashboard/src/components/ManagerDashboard.js:112-114 | the length is kept, every order carrying the snapshot's id becomes the snapshot, and every other order is unchanged |
| OrderFeed.Reduce | admin-dashboard/src/components/ManagerDashboard.js:108-114 | a new order goes in front of the unchanged list; a status or rating event keeps the ids and rewrites exactly the orders carrying the snapshot's id; a waiter call leaves the list alone |
| OrderFeed.ReplaceUnknownId | admin-dashboard/src/components/ManagerDashboard.js:112-114 | a status or rating event for an id not in the list leaves the list unchanged |
| OrderFeed.ReplaceIdempotent | admin-dashboard/src/components/ManagerDashboard.js:112-114 | applying the same snapshot twice equals applying it once |
| OrderFeed.ReplaceKeepsIds | admin-dashboard/src/components/ManagerDashboard.js:112-114 | replacing by id neither adds, drops nor reorders ids |
| OrderFeed.RedeliveryIsHarmless | admin-dashboard/src/components/CashierDashboard.js:110-116 | a status or rating event delivered twice leaves the list as a single delivery does |
| OrderFeed.LateSnapshotRewindsStatus | admin-dashboard/src/components/ManagerDashboard.js:112 | for any list and any order in it, a status snapshot of lower rank arriving later replaces the order's status with the lower one, because the list accepts every snapshot as it is |
| OrderFeed.ReduceAll | admin-dashboard/src/components/ManagerDashboard.js:108-114 | after any run of events the list has grown by exactly the number of new-order events |
| OrderFeed.ReduceAllKeepsOrders | admin-dashboard/src/components/ManagerDashboard.js:108-111 | for a run of only new-order and waiter-call events, the previous list itself stays, in order, as a suffix |
| OrderFeed.ReduceAllKeepsIds | admin-dashboard/src/components/ManagerDashboard.js:108-114 | for any run of events, new orders are only ever prepended: after one new order per new-order event, the previous orders follow, by id, in their original order |
| OrderFeed.Play | admin-dashboard/src/components/ManagerDashboard.js:29-40 | with an element attached, play leaves it playing and looping at position 0; with none, nothing changes |
| OrderFeed.Stop | admin-dashboard/src/components/ManagerDashboard.js:42-52 | with an element attached, stop leaves it paused at position 0 and keeps its looping flag; with none, nothing changes |
| OrderFeed.AlertAfter | admin-dashboard/src/components/ManagerDashboard.js:107-120 | without an element nothing changes; with one, a new order leaves it playing and looping from 0, a waiter call leaves it stopped at 0, and status and rating events leave it as it was |
| OrderFeed.PlayDoesNotStack | admin-dashboard/src/components/ManagerDashboard.js:29-40 | playing twice is the same as playing once, so repeated triggers give one alert |
| OrderFeed.StopIdempotent | admin-dashboard/src/components/ManagerDashboard.js:42-52 | stopping twice is the same as stopping once |
| OrderFeed.WaiterCallEndsSilent | admin-dashboard/src/components/ManagerDashboard.js:116-120 | a waiter-call event leaves an attached alert paused at position 0 |
| OrderFeed.AlertSound.constructor | admin-dashboard/src/components/ManagerDashboard.js:22 | the alert reference starts empty |
| OrderFeed.AlertSound.Attach | admin-dashboard/src/components/ManagerDashboard.js:76-77 | mounting attaches a fresh, paused, non-looping element at position 0 |
| OrderFeed.AlertSound.Detach | admin-dashboard/src/components/ManagerDashboard.js:78-83 | unmounting pauses the element and empties the reference |
| OrderFeed.AlertSound.PlaySound | admin-dashboard/src/components/ManagerDashboard.js:29-40 | the new state is `Play` of the old one |
| OrderFeed.AlertSound.StopSound | admin-dashboard/src/components/ManagerDashboard.js:42-52 | the new state is `Stop` of the old one |
| ManagerBoard.FetchesOrders | admin-dashboard/src/components/ManagerDashboard.js:103-105 | the manager fetches orders in exactly the orders and analytics views |
| ManagerBoard.ManagerScreen | admin-dashboard/src/components/ManagerDashboard.js:127-139 | the order board is shown exactly in the orders view; the menu and analytics views show their own screens |
| ManagerBoard.ManagerDashboard.constructor | admin-dashboard/src/components/ManagerDashboard.js:18-20 | the dashboard opens on analytics with an empty list, loading, and no alert element yet |
| ManagerBoard.ManagerDashboard.UpdateOrderStatus | admin-dashboard/src/components/ManagerDashboard.js:59-73 | the alert is stopped first, on every path; the request is `AdvanceRequest`; the dashboard's own state, the order list included, is unchanged |
| ManagerBoard.ManagerDashboard.ApplyFetch | admin-dashboard/src/components/ManagerDashboard.js:88-101 | success replaces the list; failure keeps the stale list and asks for logout exactly on a 401; loading ends either way |
| ManagerBoard.ManagerDashboard.SelectView | admin-dashboard/src/components/ManagerDashboard.js:87-125 | choosing the view already shown changes nothing and fetches nothing; switching to another view fetches exactly where `FetchesOrders` says, with the outcomes of `ApplyFetch`; otherwise the list is untouched |
| ManagerBoard.ManagerDashboard.OnEvent | admin-dashboard/src/components/ManagerDashboard.js:107-120 | the list becomes `Reduce` of the old list and the event, and the alert becomes `AlertAfter` of its old state |
| CashierBoard.FetchesOrders | admin-dashboard/src/components/CashierDashboard.js:99 | the cashier fetches in the orders view, and in analytics only with `canViewAnalytics` |
| CashierBoard.CashierScreen | admin-dashboard/src/components/CashierDashboard.js:131-140 | analytics is shown only with `canViewAnalytics`, the menu editor only with `canManageMenu`, and the order board in every other case |
| CashierBoard.AnalyticsScreenIsFetched | admin-dashboard/src/components/CashierDashboard.js:99-133 | whenever the analytics screen is shown, its orders were fetched |
| CashierBoard.CashierDashboard.constructor | admin-dashboard/src/components/CashierDashboard.js:15-17 | the dashboard opens on the orders view with an empty list, loading |
| CashierBoard.CashierDashboard.UpdateOrderStatus | admin-dashboard/src/components/CashierDashboard.js:55-69 | the alert is stopped first, on every path; the request is `AdvanceRequest`; the order list is unchanged |
| CashierBoard.CashierDashboard.ApplyFetch | admin-dashboard/src/components/CashierDashboard.js:84-97 | success replaces the list; failure keeps it and asks for logout exactly on a 401; loading ends either way |
| CashierBoard.CashierDashboard.SelectView | admin-dashboard/src/components/CashierDashboard.js:83-128 | choosing the view already shown changes nothing, fetches nothing and leaves the alert alone; switching to another view runs the previous cleanup, which stops the alert, and fetches exactly where `FetchesOrders` says |
| CashierBoard.CashierDashboard.OnEvent | admin-dashboard/src/components/CashierDashboard.js:105-122 | the list becomes `Reduce` of the old list and the event, and the alert becomes `AlertAfter` of its old state |
| OrderBoard.Column | admin-dashboard/src/components/OrderView.js:123-125 | a column holds exactly the orders with its status, and no other |
| OrderBoard.ColumnMultiplicity | admin-dashboard/src/components/OrderView.js:123-125 | a column holds each order of its status as often as the list does |
| OrderBoard.ColumnKeepsOrder | admin-dashboard/src/components/OrderView.js:123-125 | the column of two lists joined is the two columns joined, so a column keeps the list's order |
| OrderBoard.ColumnsDisjoint | admin-dashboard/src/components/OrderView.js:123-125 | the three columns are pairwise disjoint, and a cancelled order appears in none |
| OrderBoard.ColumnCountsPartition | admin-dashboard/src/components/OrderView.js:140 | the three column counts plus the cancelled orders add up to the length of the list |
| OrderBoard.CardAdvance | admin-dashboard/src/components/OrderView.js:162-237 | only Pending and In Progress cards offer advance, passing their own id and status; Completed cards offer none |
| OrderBoard.BoardAdvanceAlwaysSends | admin-dashboard/src/components/OrderView.js:162-198 | every advance button on the board leads to a request for that same order |
| OrderBoard.DeleteRequestFor | admin-dashboard/src/components/OrderView.js:31-55 | a single or delete-all request is sent exactly when the confirmation is accepted |
| OrderBoard.ShowsDeleteAll | admin-dashboard/src/components/OrderView.js:132 | the delete-all button is shown exactly when the list holds an order |
| OrderBoard.StarRow | admin-dashboard/src/components/OrderView.js:7-18 | nothing for a missing or zero rating; otherwise five stars, star `i` lit exactly when `i < rating` |
| OrderBoard.StarRowLitCount | admin-dashboard/src/components/OrderView.js:11-12 | the number of lit stars is the rating clamped to 0..5 |
| Accounts.EffectivePermissions | admin-dashboard/src/components/UserManager.js:64 | missing permissions read as both flags off; present ones are used as they are |
| Accounts.SetPermission | admin-dashboard/src/components/UserManager.js:66-69 | the chosen flag takes the value and the other keeps its own |
| Menu.FindGroup | customer-menu/src/components/CustomizationModal.js:40 | a found group is one of the item's groups with that id; none is found only when no group has it |
| Menu.FindGroupFirst | customer-menu/src/components/CustomizationModal.js:40 | when several groups share the id, the first of them is returned |
| Menu.FindOption | customer-menu/src/components/CustomizationModal.js:42 | a found option is one of the group's options with that id; none is found only when no option has it |
| Menu.FindOptionFirst | customer-menu/src/components/CustomizationModal.js:42 | when several options share the id, the first of them is returned |
| MenuEditor.IsManager | admin-dashboard/src/components/MenuManager.js:20 | true exactly for a present user whose role is `manager` |
| MenuEditor.SetFormField | admin-dashboard/src/components/MenuManager.js:36-39 | each of the seven fields takes the input's value when it is the one named, and keeps its own otherwise |
| MenuEditor.DropIndex | admin-dashboard/src/components/MenuManager.js:50-52 | exactly position `i` is removed with the rest kept in order; an index outside the list removes nothing |
| MenuEditor.EditGroupAt | admin-dashboard/src/components/MenuManager.js:54-92 | only the group at the index is changed; the length and every other group are kept |
| MenuEditor.AppendGroup | admin-dashboard/src/components/MenuManager.js:43-48 | one group is appended, with no name, not required, single choice and one empty option priced 0; the existing groups are kept |
| MenuEditor.DropGroup | admin-dashboard/src/components/MenuManager.js:50-52 | group `i` is removed with the others kept in order; an index outside the list removes nothing |
| MenuEditor.SetGroupFieldAt | admin-dashboard/src/components/MenuManager.js:54-61 | only group `i` changes, and in it only the named field; its id and options and every other group are kept |
| MenuEditor.AppendOptionAt | admin-dashboard/src/components/MenuManager.js:63-71 | only group `i` changes: one empty option priced 0 is appended to its options |
| MenuEditor.DropOptionAt | admin-dashboard/src/components/MenuManager.js:73-81 | only group `i` changes: option `oi` is removed with the others kept in order, or nothing when there is no such option |
| MenuEditor.SetOptionFieldAt | admin-dashboard/src/components/MenuManager.js:83-92 | only option `oi` of group `i` changes, and in it only the named field; every other option and group is kept |
| MenuEditor.RemoveGroupKeepsOthers | admin-dashboard/src/components/MenuManager.js:50-52 | removing group `i` keeps the groups before and after it, in order |
| MenuEditor.SetAvailability | admin-dashboard/src/components/MenuManager.js:149-153 | items with the id take the new availability; every other item is unchanged |
| MenuEditor.FormOf | admin-dashboard/src/components/MenuManager.js:125-134 | the form copies the item's name, description, price, category and availability, and its English fields when present, with missing ones as empty text |
| MenuEditor.MenuManager.constructor | admin-dashboard/src/components/MenuManager.js:9-18 | the editor starts with an empty menu, no status, an empty form, no image and no groups |
| MenuEditor.MenuManager.FetchMenu | admin-dashboard/src/components/MenuManager.js:27-32 | a fetched list replaces the menu; a failure keeps it and reports the fetch failure |
| MenuEditor.MenuManager.HandleChange | admin-dashboard/src/components/MenuManager.js:36-39 | the form becomes `SetFormField` of the old form |
| MenuEditor.MenuManager.HandleFileChange | admin-dashboard/src/components/MenuManager.js:41 | records whether an image is chosen |
| MenuEditor.MenuManager.ResetForm | admin-dashboard/src/components/MenuManager.js:160-165 | restores the empty form, no edited id, no image and no groups; the menu and status are kept |
| MenuEditor.MenuManager.HandleEdit | admin-dashboard/src/components/MenuManager.js:122-138 | a manager loads the item: its id, `FormOf(item)`, its groups or none, no image; anyone else changes nothing |
| MenuEditor.MenuManager.HandleSubmit | admin-dashboard/src/components/MenuManager.js:94-120 | only a manager sends the form; success resets the form and reports added or updated, then takes the refetched menu, or reports the fetch failure when the refetch fails; failure reports it and keeps the form, the groups, the image choice and the menu |
| MenuEditor.MenuManager.HandleDelete | admin-dashboard/src/components/MenuManager.js:167-178 | a delete is sent exactly when a manager confirms it; success reports the deletion and takes the refetched menu, or reports the fetch failure; failure reports it and keeps the menu |
| MenuEditor.MenuManager.ToggleAvailability | admin-dashboard/src/components/MenuManager.js:140-158 | after success the items with that id flip to the negation of the shown availability; after failure the menu is refetched, and a failed refetch keeps it and reports the fetch failure |
| MenuEditor.MenuManager.AddOptionGroup | admin-dashboard/src/components/MenuManager.js:43-48 | the groups become `AppendGroup` of the old groups |
| MenuEditor.MenuManager.RemoveOptionGroup | admin-dashboard/src/components/MenuManager.js:50-52 | the groups become `DropGroup` of the old groups |
| MenuEditor.MenuManager.HandleGroupChange | admin-dashboard/src/components/MenuManager.js:54-61 | the groups become `SetGroupFieldAt` of the old groups |
| MenuEditor.MenuManager.AddOption | admin-dashboard/src/components/MenuManager.js:63-71 | the groups become `AppendOptionAt` of the old groups |
| MenuEditor.MenuManager.RemoveOption | admin-dashboard/src/components/MenuManager.js:73-81 | the groups become `DropOptionAt` of the old groups |
| MenuEditor.MenuManager.HandleOptionChange | admin-dashboard/src/components/MenuManager.js:83-92 | the groups become `SetOptionFieldAt` of the old groups |
| StaffUsers.ServerText | admin-dashboard/src/components/UserManager.js:45 | the server's message when it is present and non-empty, the fallback text otherwise |
| StaffUsers.FindUser | admin-dashboard/src/components/UserManager.js:63 | the first user with the id, or none exactly when no user has it |
| StaffUsers.UpdatePermissions | admin-dashboard/src/components/UserManager.js:74-78 | users with the id take the new permissions; every other user is unchanged |
| StaffUsers.RequestedPermissions | admin-dashboard/src/components/UserManager.js:64-69 | the clicked flag takes the new value and the other keeps the value the user has, off when the record has no permissions |
| StaffUsers.PermissionChangeShowsOnlyTheClickedFlag | admin-dashboard/src/components/UserManager.js:61-79 | after a change the user's row shows the new value for the clicked flag and its previous value for the other |
| StaffUsers.UpdatePermissionsIdempotent | admin-dashboard/src/components/UserManager.js:74-78 | applying the same permissions twice equals applying them once |
| StaffUsers.UserManager.constructor | admin-dashboard/src/components/UserManager.js:8-11 | the screen starts with no users, empty fields and no message |
| StaffUsers.UserManager.ApplyUsersFetch | admin-dashboard/src/components/UserManager.js:18-25 | success replaces the list; failure keeps it and shows the fetch failure |
| StaffUsers.UserManager.HandleCreateUser | admin-dashboard/src/components/UserManager.js:31-47 | with an empty name or password nothing is sent; otherwise an `admin` account is requested; success clears both fields; failure shows the server's or the default message |
| StaffUsers.UserManager.HandleDeleteUser | admin-dashboard/src/components/UserManager.js:49-59 | a delete is sent exactly when confirmed; success reloads the list, failure keeps it |
| StaffUsers.UserManager.HandlePermissionChange | admin-dashboard/src/components/UserManager.js:61-83 | sends the user's current flags with one set; success updates only that user's rows, failure leaves the list unchanged; an unknown id sends nothing |
| AdminApp.StoredToken | admin-dashboard/src/App.js:15-16 | a token is present exactly when the key is stored with a non-empty value |
| AdminApp.Route | admin-dashboard/src/App.js:45-66 | the check screen while loading; the manager dashboard exactly for role `manager`; the cashier dashboard exactly for role `admin`; the login page with no user or any other role |
| AdminApp.UserAfterRender | admin-dashboard/src/App.js:50-57 | after a render no user is signed in exactly when none was, or rendering was done and the user's role is neither `manager` nor `admin`; otherwise the user is kept |
| AdminApp.RenderSettles | admin-dashboard/src/App.js:45-58 | a second render shows the same page and signs nobody further out |
| AdminApp.App.constructor | admin-dashboard/src/App.js:11-12 | the shell starts loading, with no user |
| AdminApp.App.Logout | admin-dashboard/src/App.js:39-43 | both storage keys are removed and the user becomes none, which routes to the login page |
| AdminApp.App.StartupCheck | admin-dashboard/src/App.js:14-31 | without a token nothing is asked; with one, the server's user is signed in, or a failure logs out; loading ends on every path |
| AdminApp.App.LoginSuccess | admin-dashboard/src/App.js:33-37 | stores the token and the user's text, then sets the user |
| AdminApp.App.Render | admin-dashboard/src/App.js:45-66 | the page is `Route` of the state; a user of any other role is logged out; a signed-in user always has a stored token |
| CustomerMenu.Stored | customer-menu/src/App.js:27-28 | a stored value is read only when present and non-empty |
| CustomerMenu.CustomerApp.constructor | customer-menu/src/App.js:27-28 | on load the remembered order id is the stored one or none, and the status is the stored one or the "not ordered yet" placeholder |
| CustomerMenu.CustomerApp.ReloadRestoresLastOrderId | customer-menu/src/App.js:27 | a reload restores the remembered order id, unless that id was empty |
| CustomerMenu.CustomerApp.ReloadRestoresStatus | customer-menu/src/App.js:28 | a reload restores the shown status whenever one is stored |
| CustomerMenu.CustomerApp.OnOrderStatusUpdated | customer-menu/src/App.js:136-147 | an event for another order, or with none remembered, changes nothing; a matching event shows and stores its status; a terminal status removes both keys and forgets the order; the cart, the form fields and the dialog are never touched |
| CustomerMenu.AddLine | customer-menu/src/App.js:163-168 | exactly one line is appended, with quantity 1, the given options and unit price, and a fresh id |
| CustomerMenu.RemoveLine | customer-menu/src/App.js:171 | exactly the lines with that id are dropped |
| CustomerMenu.RemoveLineKeepsOrder | customer-menu/src/App.js:171 | removal works line by line, so the remaining lines keep their order |
| CustomerMenu.RemoveAbsentLine | customer-menu/src/App.js:171 | removing an id the cart does not hold changes nothing |
| CustomerMenu.AtLeastOne | customer-menu/src/App.js:173 | the quantity is never below 1, and a quantity of 1 or more is kept |
| CustomerMenu.SetQuantity | customer-menu/src/App.js:172-174 | the lines with that id take the clamped quantity; every other line is unchanged |
| CustomerMenu.CartEditsKeepQuantities | customer-menu/src/App.js:154-174 | add, remove and quantity update keep every quantity at 1 or more |
| CustomerMenu.OrderLines | customer-menu/src/App.js:181-184 | one order line per cart line, in order, with the same item, name, quantity, price and options |
| CustomerMenu.CartTotal | customer-menu/src/App.js:181-185 | the cart total, sent as the order's total, equals the sum of price times quantity over the lines sent |
| CustomerMenu.AddLineTotal | customer-menu/src/App.js:163-185 | adding a line raises the total by exactly its unit price |
| CustomerMenu.FilteredMenu | customer-menu/src/App.js:211-215 | an item is listed exactly when it is available and either the tab is the current "All" label or the item is in the tab's category |
| CustomerMenu.AllLabel | customer-menu/src/App.js:213 | the "All" label is the Arabic one exactly in Arabic |
| CustomerMenu.LanguageToggleEmptiesAllTab | customer-menu/src/App.js:211-215 | on the initial tab, an available item is listed in Arabic and disappears in English |
| CustomerMenu.FilteredMenuCorrected | customer-menu/src/App.js:211-215 | an item is listed exactly when it is available and either the tab is "All" in either language or the item is in the tab's category |
| CustomerMenu.CorrectedFilterOnCategoryTab | customer-menu/src/App.js:214 | on a category tab the corrected filter equals the original in either language |
| CustomerMenu.CorrectedFilterOnAllTab | customer-menu/src/App.js:213 | on the current language's "All" tab the corrected filter equals the original |
| CustomerMenu.InitialTabShowsEverything | customer-menu/src/App.js:35 | with the corrected filter, the initial tab lists every available item |
| CustomerMenu.SubmitCheck | customer-menu/src/App.js:177-179 | submit may go ahead exactly when name, table and cart are all present; the first missing one, in that order, picks the message |
| CustomerMenu.CustomerApp.HandleAddToCart | customer-menu/src/App.js:154-161 | an item with option groups opens the dialog; any other item is added as one line at its base price; nothing else changes |
| CustomerMenu.CustomerApp.AddSimpleItemToCart | customer-menu/src/App.js:163-168 | the cart becomes `AddLine` of the old cart |
| CustomerMenu.CustomerApp.CloseModal | customer-menu/src/App.js:170 | the dialog is closed and no item is selected |
| CustomerMenu.CustomerApp.RemoveFromCart | customer-menu/src/App.js:171 | the cart becomes `RemoveLine` of the old cart |
| CustomerMenu.CustomerApp.UpdateQuantity | customer-menu/src/App.js:172-174 | the cart becomes `SetQuantity` of the old cart |
| CustomerMenu.CustomerApp.RememberOrder | customer-menu/src/App.js:190-193 | the created order's id is remembered and its status is Pending, in memory and in both storage keys, so memory and storage agree |
| CustomerMenu.CustomerApp.SubmitOrder | customer-menu/src/App.js:176-201 | a failed check sets its message and sends nothing; otherwise the cart's lines and total are sent; success remembers the new order as Pending in memory and in storage and empties cart and notes; failure shows the server's non-empty message or the fallback and changes nothing else; the dialog is never touched |
| Customization.Lookup | customer-menu/src/components/CustomizationModal.js:22 | the option keys of a group, or none when the group has no entry |
| Customization.LookupFirst | customer-menu/src/components/CustomizationModal.js:22 | the keys read for a group are those of the first entry for that group |
| Customization.Put | customer-menu/src/components/CustomizationModal.js:30-32 | the group's entry becomes the given keys, in its old place or appended; every other group is unchanged |
| Customization.Without | customer-menu/src/components/CustomizationModal.js:25 | exactly the given key is removed |
| Customization.Toggle | customer-menu/src/components/CustomizationModal.js:24-28 | the option's membership flips and no other option changes |
| Customization.PutWellFormed | customer-menu/src/components/CustomizationModal.js:30-32 | writing a group entry keeps one entry per group |
| Customization.LookupDistinct | customer-menu/src/components/CustomizationModal.js:22-28 | a group never lists an option twice |
| Customization.ChooseWellFormed | customer-menu/src/components/CustomizationModal.js:20-35 | a click keeps one entry per group |
| Customization.Choose | customer-menu/src/components/CustomizationModal.js:20-35 | a radio click leaves exactly the clicked option in its group; a checkbox click flips the clicked option's membership and no other option's; other groups keep their choices |
| Customization.ToggleTwice | customer-menu/src/components/CustomizationModal.js:23-30 | clicking the same checkbox twice restores the group's previous selection |
| Customization.ClickKeepsSelectionValid | customer-menu/src/components/CustomizationModal.js:20-35 | a click on a rendered option keeps one entry per group and every selected group one of the item's |
| Customization.ChooseFits | customer-menu/src/components/CustomizationModal.js:20-40 | a click on one of the item's groups keeps every selected group one of the item's |
| Customization.FindGroupPresent | customer-menu/src/components/CustomizationModal.js:40 | a group with an id is found by that id |
| Customization.GroupExtra | customer-menu/src/components/CustomizationModal.js:41-45 | the keys of a group that name none of its options add nothing, and options priced 0 or more never lower the price |
| Customization.SelectionExtra | customer-menu/src/components/CustomizationModal.js:37-47 | groups with every option unchecked add nothing, and options priced 0 or more never lower the price |
| Customization.FoundCount | customer-menu/src/components/CustomizationModal.js:54-55 | counts the chosen keys of a group that name one of its options; never more than the keys |
| Customization.FoundCountAll | customer-menu/src/components/CustomizationModal.js:54-55 | every chosen key is counted exactly when every one of them names an option |
| Customization.GroupCartOptions | customer-menu/src/components/CustomizationModal.js:54-58 | a group contributes exactly as many cart entries as it has chosen keys that name an option |
| Customization.GroupCartOptionsSound | customer-menu/src/components/CustomizationModal.js:54-58 | every entry of a group is the group name, option name and price of an option that some chosen key finds |
| Customization.GroupCartOptionsComplete | customer-menu/src/components/CustomizationModal.js:54-58 | every chosen key that finds an option puts that option's entry in the list, in key order, after the entries of the keys before it |
| Customization.GroupCartOptionsPrice | customer-menu/src/components/CustomizationModal.js:41-58 | a group's cart entries cost exactly what that group adds to the price |
| Customization.CartOptionsPrice | customer-menu/src/components/CustomizationModal.js:38-61 | the cart entries cost exactly what the selection adds to the base price |
| Customization.CartOptionsCount | customer-menu/src/components/CustomizationModal.js:50-60 | when every selected key names an option, there is exactly one cart entry per selected option |
| Customization.CartOptionsSound | customer-menu/src/components/CustomizationModal.js:50-60 | every option handed to the cart is the entry of some chosen key of some selected group |
| Customization.CartOptionsComplete | customer-menu/src/components/CustomizationModal.js:50-60 | every chosen key that names an option of its group puts that option's entry in the cart |
| Customization.ComputeTotalPrice | customer-menu/src/components/CustomizationModal.js:37-47 | the nested loop yields the base price plus the prices of the selected options that exist in their group |
| Customization.CollectGroupOptions | customer-menu/src/components/CustomizationModal.js:52-58 | the inner push loop yields `GroupCartOptions` of the group and its chosen keys |
| Customization.CollectCartOptions | customer-menu/src/components/CustomizationModal.js:50-60 | the nested push loop yields `CartOptions`, whose entries `CartOptionsSound` and `CartOptionsComplete` characterise |
| Customization.MissingRequired | customer-menu/src/components/CustomizationModal.js:65-69 | true exactly when some required group has no selected option |
| Customization.NoRequiredGroupNeverMissing | customer-menu/src/components/CustomizationModal.js:65-69 | with no required group nothing is ever missing |
| Customization.CustomizationModal.constructor | customer-menu/src/components/CustomizationModal.js:8-9 | the dialog opens with nothing selected and the base price shown |
| Customization.CustomizationModal.Reset | customer-menu/src/components/CustomizationModal.js:15-18 | opening or changing the item resets the selection to empty and the price to the base price |
| Customization.CustomizationModal.HandleOptionChange | customer-menu/src/components/CustomizationModal.js:20-47 | the selection becomes `Choose` of the old one, and the shown price stays the base price plus the selection's options |
| Customization.CustomizationModal.AddToCartClick | customer-menu/src/components/CustomizationModal.js:50-101 | nothing is added exactly while a required group is empty; otherwise the cart gets `CartOptions` and the shown price, which is the base price plus those options' prices |
| RatingForm.StarOn | customer-menu/src/components/RatingModal.js:56 | star `k` is lit exactly when `k` is at most the hovered star, or at most the rating when none is hovered |
| RatingForm.StarButtons | customer-menu/src/components/RatingModal.js:53-56 | five buttons, each lit by `StarOn` |
| RatingForm.ChosenRowMatchesBoard | customer-menu/src/components/RatingModal.js:53-56 | with no hover, the row for a chosen rating is the row the kitchen board shows for that rating |
| RatingForm.Act | customer-menu/src/components/RatingModal.js:19-39 | star, hover and comment inputs set their field and keep the message; send with no star asks for one and sends nothing; send with a star sends the order id, rating and comment, then thanks or shows the server's non-empty message |
| RatingForm.Step | customer-menu/src/components/RatingModal.js:48-75 | an input reaches its handler exactly while the controls are shown; otherwise nothing changes and nothing is sent |
| RatingForm.Run | customer-menu/src/components/RatingModal.js:48-75 | a run of inputs sends at most one request per input |
| RatingForm.HiddenControlsIgnoreInput | customer-menu/src/components/RatingModal.js:48-50 | while a message hides the controls, no run of inputs changes the dialog or sends anything |
| RatingForm.UnratedSendIsFinal | customer-menu/src/components/RatingModal.js:19-22 | pressing send with no star chosen means no rating is ever sent afterwards, whatever the customer does |
| RatingForm.FailedSendIsFinal | customer-menu/src/components/RatingModal.js:36-38 | after a failed send, nothing more is sent, whatever the customer does |
| RatingForm.IntendedRecovers | customer-menu/src/components/RatingModal.js:19-22 | with the prompt shown beside the stars, choosing a star and sending sends that rating from any dialog not yet thanked |
| RatingForm.IntendedThanksIsFinal | customer-menu/src/components/RatingModal.js:29-35 | even with the intended layout, nothing more is sent after the thanks |
| RatingForm.RatingModal.constructor | customer-menu/src/components/RatingModal.js:10-13 | the dialog starts with no rating, no hover, no comment and no message |
| RatingForm.RatingModal.ClickStar | customer-menu/src/components/RatingModal.js:57 | clicking star `k`, possible only while no message is shown, sets the rating to `k`, as `Act` does |
| RatingForm.RatingModal.EnterStar | customer-menu/src/components/RatingModal.js:58 | entering star `k`, possible only while no message is shown, sets the hover to `k`, as `Act` does |
| RatingForm.RatingModal.LeaveStar | customer-menu/src/components/RatingModal.js:59 | leaving a star, possible only while no message is shown, resets the hover to 0, as `Act` does |
| RatingForm.RatingModal.EditComment | customer-menu/src/components/RatingModal.js:66-70 | typing, possible only while no message is shown, makes the comment the typed text, as `Act` does |
| RatingForm.RatingModal.SubmitRating | customer-menu/src/components/RatingModal.js:19-39 | only while no message is shown: rating 0 asks for a rating and sends nothing; otherwise the rating (1 to 5) and the comment are sent, followed by the thanks or the server's non-empty message, the fallback otherwise; state and request are those of `Act` |
| RatingForm.RatingModal.ThanksTimeout | customer-menu/src/components/RatingModal.js:30-35 | after the thanks, the dialog closes and message, rating and comment are reset |

## Left out

- Server calls (axios) are not modelled as I/O. Each outcome is a parameter, and so is the list a refetch returns. The menu refetch (`fetchMenu`) that a save or delete starts without waiting is modelled as answering after the handler has set its status.
- The socket connection itself is left out: connecting, disconnecting and re-registering handlers. The events arrive as method calls. The code adds no reconnect handling of its own; the socket library's built-in reconnection is not modelled.
- Audio playback is reduced to the element's state: attached, playing, looping and position.
- These are not modelled: the `alert`/`confirm` dialogs (a confirmation is a boolean parameter), the `setTimeout` message clearing (the rating dialog's timer is `ThanksTimeout`), the print window's HTML, and all JSX, CSS and theme properties.
- Floating-point money and `toFixed` formatting are not modelled. Prices are integers in minor units, including the menu editor's price inputs, which the source keeps as text.
- The `getText`/`translateStatus` display strings are left out. The status text kept by the customer tracker is the wire spelling of the status. Messages are datatype constructors, not their Arabic or English texts.
- `Date.now()` cart-line ids are left out. `AddLine` and the add-to-cart methods require a fresh id instead.
- The customer order-history view (`fetchOrderHistory`, `renderOrderHistory`) is not part of this model.
- The QR-code table lock, the waiter call (`handleCallWaiter`) and the menu and settings fetch are not part of this model.
- Login.js, users.js, both AnalyticsDashboard.js files, ThemeManager.js, ReviewsDashboard.js and customer-menu MenuManager.js are not part of this model.
- Statuses other than the four the server stores cannot be represented. `Orders.Status` has exactly those four.
- `CashierBoard.CashierDashboard`: the source reads `user.permissions` without a default, so a cashier record without permissions would fail when rendered. The model receives the two flags directly.
- `Customization.CustomizationModal`: the model requires that every option group have an id (`GroupIdsPresent`). The source's price effect would fail on a selected group it cannot find by id.
- `StaffUsers.UserManager.HandlePermissionChange`: the source would fail on an id that is not in the list. The model returns no request and leaves the state as it was.
- `OrderFeed.ReduceAllKeepsOrders`: the previous orders themselves are a suffix only for runs of new-order and waiter-call events, because status and rating events rewrite orders in place; `OrderFeed.ReduceAllKeepsIds` states the general form, by id.
- `RatingForm.RatingModal`: the dialog's close button and whether closing and reopening remounts it (which would clear a stuck message) are not modelled. The component that mounts the dialog is not part of this model; `Run` covers input while it stays mounted, with no success timer pending.
- `OrderFeed.ReplaceById`: order statuses are expected only to move forward. The code instead accepts every snapshot as it arrives, and the model follows the code. `OrderFeed.LateSnapshotRewindsStatus` shows a late snapshot moving a status back.

## Findings

| source | as written | input that shows it | evidently intended | confidence | as-written member | corrected member |
|---|---|---|---|---|---|---|
| customer-menu/src/App.js:211-215 | the filter recognises the "All" tab only by the current language's label, but the active tab keeps the label it was set with (initially the Arabic one) | language switched to English while the tab is still on its initial value, with an available item whose category is "Drinks": the menu lists nothing | the "All" tab lists every available item in either language | high, not executed | CustomerMenu.LanguageToggleEmptiesAllTab | CustomerMenu.FilteredMenuCorrected |
| customer-menu/src/components/RatingModal.js:48-75 | the stars, comment box and send button are rendered only while the message is empty; the rating prompt (lines 19-22) and the failure line (lines 36-38) set a message, and only the timer started by a successful send clears it | open the dialog and press Send Rating before choosing a star: the prompt replaces the stars, and no later click can choose a rating or send one while the dialog stays mounted | the prompt and the failure line are shown above the live controls, so the customer can choose a star and send again; only the thanks hides them | high, not executed | RatingForm.UnratedSendIsFinal | RatingForm.IntendedRecovers |

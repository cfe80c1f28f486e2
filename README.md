# Cruise-ship services portal: a verified model of its logic

This project models the logic of a cruise-ship services portal written as a single-page
web application. Passengers ("voyagers") and four kinds of crew sign in against a fixed
credential table. A session store keeps the signed-in user and mirrors it in one
browser-storage slot. A route gate sends signed-out visitors to the sign-in page. A
dashboard shell shows a greeting and a per-role side menu. The voyager pages are:

- two shopping carts (in-room dining and a stationery shop);
- four booking pages (party halls, fitness center, beauty salon, resort and movies).

Each booking page has a catalog filter and a booking dialog.

One module per source file:

| module | file | models |
|---|---|---|
| `Lists` | lists.dfy | the array operations the pages rely on (`find`, `filter`, `flatMap`, de-duplication through a `Set`) |
| `Carts` | carts.dfy | the cart updaters shared by the catering and stationery pages |
| `Catalog` | catalog.dfy | the category filter and the category list shared by the pages |
| `Auth` | auth.dfy | `AuthProvider` |
| `Navigation` | navigation.dfy | `DashboardLayout` |
| `Dashboard` | dashboard.dfy | `Dashboard` |
| `Routes` | routes.dfy | `ProtectedRoute` and `AppRoutes` |
| `Catering`, `Stationery`, `PartyHall`, `FitnessCenter`, `BeautySalon`, `ResortMovies` | one file each | the six pages |

Two kinds of code are modelled differently:

- Code that only computes a value becomes a function. This covers the cart updaters, the
  totals, the filters, the role tables and the gate. Lemmas prove its properties.
- Code that changes component state becomes a method on a class whose fields are that
  component's state. This covers sign-in, sign-out, the mount effect, add-to-cart,
  checkout, opening a dialog and confirming a booking. Each method's `ensures` ties the
  new state to a specification function, whose properties are again proved as lemmas.

The pure cart updaters are the `Carts` functions. The page classes call them.

Value conventions:

- Prices are integers. The catering, stationery and resort prices are in cents (24.99 is 2499; the resort's 89.99 is 8999).
- Party-hall and salon prices are whole dollars, as in the source.
- The party-hall duration is a number of hours.
- A calendar day is an abstract `Date` (an integer). The hour of the day is a parameter.
- Navigation is a returned target path.
- Storage is one `Option<User>` field of a `Storage` object. That object outlives any one
  session store, so a sign-in followed by a reload can be modelled.

## Model

| member | source | states |
|---|---|---|
| Lists.FindIndex | src/contexts/AuthContext.tsx:80 | the position found holds a match, no earlier position does, and there is none exactly when nothing matches |
| Lists.Find | src/contexts/AuthContext.tsx:80 | the element found is in the array and matches; none is found exactly when no element matches |
| Lists.FindFirstMatch | src/contexts/AuthContext.tsx:80 | a match with no earlier match is the element `find` returns |
| Lists.Filter | src/pages/Stationery.tsx:100 | the result keeps exactly the elements that pass, and only passing ones |
| Lists.FilterIsSubsequence | src/pages/Stationery.tsx:100 | `filter` keeps the input order |
| Lists.FilterCounts | src/pages/Stationery.tsx:100 | `filter` keeps each passing element as often as it occurs, and no other element |
| Lists.FilterConcat | src/pages/Catering.tsx:92 | filtering a concatenation filters each part |
| Lists.FilterAllPass | src/pages/Catering.tsx:92 | a filter every element passes returns its input unchanged |
| Lists.Flatten | src/pages/PartyHall.tsx:145 | `flatMap` contains exactly the elements of the inner arrays |
| Lists.IndexOf | src/pages/PartyHall.tsx:145 | the first occurrence of an element |
| Lists.Distinct | src/pages/PartyHall.tsx:145 | `Array.from(new Set(xs))` has no duplicates and the same elements as `xs` |
| Lists.DistinctFirstOccurrenceOrder | src/pages/PartyHall.tsx:145 | the de-duplicated elements come in order of first occurrence |
| Carts.Lookup | src/pages/Catering.tsx:64 | the line found has the id; none is found exactly when no line has it |
| Carts.Increment | src/pages/Catering.tsx:67-71 | the `map` that bumps the id's line; Add states its effect on the cart, SumIncrement on the total, AddPreservesValid that the invariant is kept, and RemoveAfterAdd that a remove undoes it |
| Carts.Decrement | src/pages/Catering.tsx:87-89 | the `map` that lowers the id's line; Remove states its effect on the cart, SumDecrement on the total, and RemovePreservesValid that the invariant is kept |
| Carts.Drop | src/pages/Catering.tsx:92 | the lines kept are exactly those without the id, in their original order and as often as they occurred |
| Carts.DropAt | src/pages/Catering.tsx:92 | in a valid cart, dropping the id of one line deletes exactly that line and keeps the rest in order |
| Carts.Add | src/pages/Catering.tsx:62-81 | an existing id gains one unit with every other line and the order unchanged; a new id is appended with quantity 1 |
| Carts.Remove | src/pages/Catering.tsx:83-95 | decrements a line above 1; otherwise deletes the id's lines, keeping the other lines in order and multiplicity; leaves the cart unchanged for an absent id |
| Carts.RemoveDeletesLine | src/pages/Catering.tsx:88-93 | in a valid cart, removing the last unit of a line deletes exactly that line and keeps the others in order |
| Carts.AddPreservesValid | src/pages/Catering.tsx:62-81 | adding keeps ids unique and quantities at least 1 |
| Carts.DropPreservesValid | src/pages/Catering.tsx:92 | dropping an id keeps ids unique and quantities at least 1 |
| Carts.RemovePreservesValid | src/pages/Catering.tsx:83-95 | removing keeps ids unique and quantities at least 1 |
| Carts.RemoveAfterAdd | src/pages/Catering.tsx:62-95 | add then remove of the same id gives back exactly the original cart |
| Carts.Valid | src/pages/Catering.tsx:62-95 | the cart invariant (one line per id, every quantity at least 1), kept by AddPreservesValid, DropPreservesValid and RemovePreservesValid |
| Carts.Sum | src/pages/Catering.tsx:97-99 | the `reduce` of weight × quantity over the cart; SumAppend, SumIncrement, SumDecrement, SumDrop, SumAfterAdd and SumAfterRemove state how each updater moves it |
| Carts.SumAppend | src/pages/Catering.tsx:97-99 | appending a line adds that line's weight × quantity to the reduce |
| Carts.SumIncrement | src/pages/Catering.tsx:97-99 | bumping a line adds one unit of its weight |
| Carts.SumDecrement | src/pages/Catering.tsx:97-99 | decrementing a line takes one unit of its weight away |
| Carts.SumDrop | src/pages/Catering.tsx:97-99 | dropping a line takes away its weight × quantity |
| Carts.SumAfterAdd | src/pages/Catering.tsx:97-99 | every add raises the total by exactly one unit of the added item |
| Carts.SumAfterRemove | src/pages/Catering.tsx:97-99 | removing a present id lowers the total by one unit of it; removing an absent id changes nothing |
| Catalog.ByCategory | src/pages/Stationery.tsx:98-100 | "All" gives the whole catalog; any other selection gives exactly the items of that category |
| Catalog.ByCategoryExact | src/pages/Stationery.tsx:98-100 | the filtered list is an in-order subsequence with the exact multiplicities |
| Catalog.Categories | src/pages/FitnessCenter.tsx:158 | `items.map(i => i.category)`; what the filter choices built from it promise is stated by UniqueCategories and UniqueCategoriesOrder |
| Catalog.UniqueCategories | src/pages/FitnessCenter.tsx:158 | "All" first, then each catalog category exactly once |
| Catalog.UniqueCategoriesOrder | src/pages/FitnessCenter.tsx:158 | the categories after "All" follow their first occurrence in the catalog |
| Auth.FindCredential | src/contexts/AuthContext.tsx:80 | a row is found exactly when some row has both the email and the password |
| Auth.MockUsersWellFormed | src/contexts/AuthContext.tsx:16-52 | the table's emails are pairwise distinct and each role is one of the five |
| Auth.MatchIsUnique | src/contexts/AuthContext.tsx:16-52 | a matching row is the one sign-in picks |
| Auth.WithoutPassword | src/contexts/AuthContext.tsx:83 | the row's id, name, email and role without the password; LoginOutcome states that sign-in sets exactly this record as user and stored value |
| Auth.Mounted | src/contexts/AuthContext.tsx:65-66 | a fresh provider: no user, loading, the slot as it was; AuthProvider.constructor ends in this state and Routes.GateAcrossRestore shows the gate waits on it |
| Auth.Restored | src/contexts/AuthContext.tsx:69-76 | the mount effect on the state; AuthProvider.Restore ends in it, and RestoreAfterLogin and ReloadAfterLogin state that it brings back the signed-in user |
| Auth.LoggedIn | src/contexts/AuthContext.tsx:78-101 | sign-in on the state; LoginOutcome states its result on a match and on no match, and AuthProvider.Login ends in it |
| Auth.LoggedOut | src/contexts/AuthContext.tsx:103-111 | sign-out on the state; LogoutIdempotent states that it clears user and slot from any state and that a repeat changes nothing |
| Auth.LoginOutcome | src/contexts/AuthContext.tsx:80-99 | sign-in changes the state only on a match, then sets user and slot to the row without its password; loading is untouched |
| Auth.RestoreAfterLogin | src/contexts/AuthContext.tsx:69-76 | after a successful sign-in a freshly mounted store restores the same user and stops loading |
| Auth.LogoutIdempotent | src/contexts/AuthContext.tsx:103-105 | sign-out empties user and slot whatever the prior state, so repeating it changes nothing |
| Auth.Storage.constructor | src/contexts/AuthContext.tsx:71 | the storage slot holds its initial record |
| Auth.AuthProvider.constructor | src/contexts/AuthContext.tsx:65-66 | a mounted store has no user and is loading |
| Auth.AuthProvider.Restore | src/contexts/AuthContext.tsx:69-76 | adopts the stored record if any and ends loading either way |
| Auth.AuthProvider.Login | src/contexts/AuthContext.tsx:78-101 | returns true exactly on a match, is then signed in, and the new state is the sign-in function of the old |
| Auth.AuthProvider.Logout | src/contexts/AuthContext.tsx:103-111 | clears user and slot and is no longer signed in |
| Auth.AuthProvider.IsAuthenticated | src/contexts/AuthContext.tsx:120 | `!!user`; AuthProvider.Login states it holds after a successful sign-in and AuthProvider.Logout that it fails after sign-out |
| Auth.ReloadAfterLogin | src/contexts/AuthContext.tsx:83-85 | sign-in, reload and restore give a loaded store with the same user |
| Navigation.Greeting | src/components/layout/DashboardLayout.tsx:34-39 | morning before 12, afternoon from 12 to before 18, evening from 18; each iff its hour range |
| Navigation.GreetingMonotone | src/components/layout/DashboardLayout.tsx:34-39 | over the day the greeting only moves forward |
| Navigation.ParseRole | src/components/layout/DashboardLayout.tsx:48-86 | a role is recognised exactly when the string names one of the five roles |
| Navigation.NavItems | src/components/layout/DashboardLayout.tsx:47-87 | an empty menu exactly for a missing or unknown role; every non-empty menu starts with Dashboard |
| Navigation.RoleMenu | src/components/layout/DashboardLayout.tsx:48-83 | each role's fixed menu; RoleMenuShape states its length and distinct paths, and NavItems that it starts with Dashboard |
| Navigation.Paths | src/components/layout/DashboardLayout.tsx:142 | the menu paths; RoleMenuShape proves them distinct within each menu, and ActiveAtMostOne turns that into at most one highlighted entry |
| Navigation.RoleMenuShape | src/components/layout/DashboardLayout.tsx:48-83 | the menu lengths are 7, 4, 5, 2, 2 and paths within a menu are distinct |
| Navigation.IsActive | src/components/layout/DashboardLayout.tsx:145 | the highlight test `currentPath === item.path`; ActiveAtMostOne and OneActiveEntry state that at most one entry passes it |
| Navigation.ActiveAtMostOne | src/components/layout/DashboardLayout.tsx:145 | with distinct paths at most one entry is highlighted, and one exactly when the path is in the menu |
| Navigation.OneActiveEntry | src/components/layout/DashboardLayout.tsx:195 | for any user at most one menu entry is highlighted |
| Navigation.Layout.constructor | src/components/layout/DashboardLayout.tsx:45 | the mobile menu starts closed |
| Navigation.Layout.ToggleMenu | src/components/layout/DashboardLayout.tsx:106 | the menu button flips the mobile menu |
| Navigation.Layout.FollowMobileLink | src/components/layout/DashboardLayout.tsx:149 | a mobile link closes the menu and goes to its path |
| Navigation.Layout.HandleLogout | src/components/layout/DashboardLayout.tsx:92-95 | signs out, then targets "/login" |
| Dashboard.ViewFor | src/pages/Dashboard.tsx:30-45 | the unknown-role view exactly for a missing or unrecognised role |
| Dashboard.ViewsDistinct | src/pages/Dashboard.tsx:31-41 | the five roles dispatch to five different views |
| Dashboard.Shortcuts | src/pages/Dashboard.tsx:59-305 | the cards of each view; ShortcutsMatchMenu states they are the side-menu entries after Dashboard, and ManagerCards gives the manager's counts |
| Dashboard.ShortcutsMatchMenu | src/pages/Dashboard.tsx:62-105 | for every role the dashboard cards are the side-menu entries after Dashboard, with the same icons, titles, paths and order |
| Dashboard.ManagerCards | src/pages/Dashboard.tsx:193-222 | four manager cards, counts 24, 18, 35 and 12, all on `-bookings` paths |
| Routes.ProtectedRoute | src/App.tsx:22-34 | waits while loading; redirects to "/login" with replace exactly when loaded and signed out; shows the page exactly when loaded and signed in |
| Routes.Match | src/App.tsx:38-69 | a route is selected only when the path spells its path up to letter case and trailing slashes, and none exactly when no route matches |
| Routes.Lower | src/App.tsx:38-69 | the path folded to lower case: same length and no ASCII capital left; KeyIgnoresCase, ResolveIgnoresSlashAndCase and CateringUpperCase carry what the router gains from it |
| Routes.LowerWithoutCapitals | src/App.tsx:38-69 | a path without capitals is its own lower-case form, so lowering is idempotent |
| Routes.Key | src/App.tsx:38-69 | what the router compares; KeyIgnoresTrailingSlash and KeyIgnoresCase state that a trailing slash and letter case do not change it |
| Routes.KeyIgnoresTrailingSlash | src/App.tsx:38-69 | appending a slash leaves the compared key unchanged |
| Routes.KeyIgnoresCase | src/App.tsx:38-69 | lowering the letters leaves the compared key unchanged |
| Routes.PathMatches | src/App.tsx:38-69 | a non-empty path matches a route path when their keys agree; RoutesDisjoint states that at most one route matches any path |
| Routes.Resolve | src/App.tsx:36-72 | the screen for a path; PublicPaths, GatedPathsOpenToEveryUser, UnknownPathNotFound and ResolveIgnoresSlashAndCase state it |
| Routes.TrimTrailingSlashes | src/App.tsx:38-69 | the trimmed path is a prefix of the path, followed in it only by slashes, and does not end in one |
| Routes.RoutesDisjoint | src/App.tsx:38-69 | no path matches two routes, so the router's ranking and the table order agree |
| Routes.MatchAt | src/App.tsx:38-69 | a path matching a route's path selects that route |
| Routes.ResolveIgnoresSlashAndCase | src/App.tsx:38-69 | a trailing slash or a change of letter case never changes the screen |
| Routes.CateringUpperCase | src/App.tsx:44 | "/Catering" reaches the gated catering page, as "/catering" does |
| Routes.CateringTrailingSlash | src/App.tsx:44 | "/catering/" reaches the gated catering page, as "/catering" does |
| Routes.GatedPathsOpenToEveryUser | src/App.tsx:43-49 | each voyager service path is a gated route whose outcome depends only on the session flags, never on the role |
| Routes.PublicPaths | src/App.tsx:39-40 | "/" and "/login" show their pages in any session state |
| Routes.UnknownPathNotFound | src/App.tsx:69 | a path that matches no route, up to case and trailing slashes, shows the not-found page |
| Routes.StaffMenuEntriesNotFound | src/App.tsx:52-66 | every staff menu entry except Dashboard leads to the not-found page |
| Routes.GateAcrossRestore | src/App.tsx:25-33 | on mount the gate waits; after the restore effect it shows the page exactly when a user was stored |
| Catering.MenuWellFormed | src/pages/Catering.tsx:22-47 | sixteen dishes with distinct ids and positive prices |
| Catering.AddedToCart | src/pages/Catering.tsx:62-81 | the `addToCart` updater; AddToCartInvariant, TotalAfterAdd and AddThenRemove state what it keeps, adds and undoes |
| Catering.RemovedFromCart | src/pages/Catering.tsx:83-95 | the `removeFromCart` updater; RemoveFromCartInvariant, TotalAfterRemove and AddThenRemove state it |
| Catering.TotalPrice | src/pages/Catering.tsx:97-99 | `getTotalPrice()`; TotalAfterAdd, TotalAfterRemove and TotalPositive state how it moves and that it is zero only for an empty cart |
| Catering.AddToCartInvariant | src/pages/Catering.tsx:62-81 | adding a menu dish keeps ids unique, quantities at least 1 and every line true to the menu |
| Catering.RemoveFromCartInvariant | src/pages/Catering.tsx:83-95 | removing keeps the same invariants |
| Catering.TotalAfterAdd | src/pages/Catering.tsx:97-99 | adding a menu dish raises the total by exactly its price |
| Catering.TotalAfterRemove | src/pages/Catering.tsx:97-99 | removing lowers the total by the line's price if present, and not at all otherwise |
| Catering.AddThenRemove | src/pages/Catering.tsx:62-95 | add then remove restores the cart and its total |
| Catering.TotalPositive | src/pages/Catering.tsx:97-99 | the total is never negative and is zero exactly for the empty cart |
| Catering.CheckoutOutcome | src/pages/Catering.tsx:101-136 | room number required iff it is empty; empty cart iff a room is given and the cart is empty; otherwise the order carries the cart, room and total |
| Catering.PlacedOrderCharges | src/pages/Catering.tsx:120-125 | a placed order charges a positive total |
| Catering.CateringPage.constructor | src/pages/Catering.tsx:58-59 | an empty cart and an empty room number |
| Catering.CateringPage.PlaceOrderDisabled | src/pages/Catering.tsx:292 | the button is disabled exactly for an empty cart |
| Catering.CateringPage.AddToCart | src/pages/Catering.tsx:62-81 | the cart becomes the add updater's result, the invariants hold and the total rises by the dish's price |
| Catering.CateringPage.RemoveFromCart | src/pages/Catering.tsx:83-95 | the cart becomes the remove updater's result and the invariants hold |
| Catering.CateringPage.HandleCheckout | src/pages/Catering.tsx:101-136 | the outcome follows the ordered checks; failures change nothing; a placed order empties cart and room number |
| Stationery.BooksFilter | src/pages/Stationery.tsx:98-100 | "Books" shows products 1 and 5 in that order |
| Stationery.GiftsFilter | src/pages/Stationery.tsx:98-100 | "Gifts" shows products 2 and 6 in that order |
| Stationery.StationeryFilter | src/pages/Stationery.tsx:98-100 | "Stationery" shows products 3 and 4 in that order |
| Stationery.FilteredProducts | src/pages/Stationery.tsx:98-100 | `filteredProducts`; FilteredProductsExact and the three category lemmas state its value |
| Stationery.FilteredProductsExact | src/pages/Stationery.tsx:98-100 | any selection shows exactly the matching products as an in-order subsequence |
| Stationery.CartCount | src/pages/Stationery.tsx:133 | the item count in the toast; CountAtLeastLines and AddedToCartFacts state its bound and its step |
| Stationery.AddedToCart | src/pages/Stationery.tsx:77-90 | the new cart `handleAddToCart` sets; AddedToCartFacts states what it keeps and how the count moves |
| Stationery.CountAtLeastLines | src/pages/Stationery.tsx:133 | the cart count is at least the number of lines |
| Stationery.AddedToCartFacts | src/pages/Stationery.tsx:77-90 | each add keeps the invariant, raises the count by exactly one and removes no line |
| Stationery.StationeryPage.constructor | src/pages/Stationery.tsx:74-75 | an empty cart and the "All" filter |
| Stationery.StationeryPage.Shown | src/pages/Stationery.tsx:98-100 | the listed products are exactly the catalog products of the selected category |
| Stationery.StationeryPage.HandleAddToCart | src/pages/Stationery.tsx:77-96 | the cart becomes the add updater's result, the invariant holds and the count rises by one |
| PartyHall.HallsWellFormed | src/pages/PartyHall.tsx:20-61 | distinct hall ids; every hall hosts birthdays |
| PartyHall.FindHall | src/pages/PartyHall.tsx:123 | the hall found has the selected id; none exactly when nothing is selected or no hall has the id |
| PartyHall.FindHallAt | src/pages/PartyHall.tsx:123 | a catalog hall's id finds that hall |
| PartyHall.BookingPrice | src/pages/PartyHall.tsx:122-124 | the price the confirmation computes; BookingPriceFacts and PricesAgree state it |
| PartyHall.SummaryPrice | src/pages/PartyHall.tsx:387 | the summary figure, hours times the selected rate or 0; PricesAgree states it equals BookingPrice |
| PartyHall.PricesAgree | src/pages/PartyHall.tsx:387 | the summary figure equals the price the confirmation computes at line 124, for every selection and duration |
| PartyHall.BookingPriceFacts | src/pages/PartyHall.tsx:122-124 | rate × hours for a catalog hall, 0 without one, and between 500 and 3300 for an offered duration |
| PartyHall.FilteredHalls | src/pages/PartyHall.tsx:141-143 | "All" gives every hall; otherwise exactly the halls whose party types include the selection |
| PartyHall.FilteredHallsInOrder | src/pages/PartyHall.tsx:141-143 | the filtered halls are an in-order subsequence with exact multiplicities |
| PartyHall.BirthdayShowsEveryHall | src/pages/PartyHall.tsx:141-143 | the "Birthday" filter shows the whole catalog |
| PartyHall.HallPartyTypes | src/pages/PartyHall.tsx:145 | `partyHalls.map(h => h.partyTypes)` before flattening; what the choices built from it promise is stated by UniquePartyTypes, UniquePartyTypesOrder and PartyTypeChoices |
| PartyHall.UniquePartyTypes | src/pages/PartyHall.tsx:145 | "All" first, then each hall party type exactly once |
| PartyHall.UniquePartyTypesOrder | src/pages/PartyHall.tsx:145 | the party types follow their first occurrence across the halls |
| PartyHall.PartyTypeChoices | src/pages/PartyHall.tsx:145 | every filter choice selects some hall and is an offered event type; "Other" is never a choice |
| PartyHall.InitialForm | src/pages/PartyHall.tsx:108-115 | the mount form; InitialFormNotReady and ConfirmResetsForm state it |
| PartyHall.AfterConfirm | src/pages/PartyHall.tsx:131-138 | the form after a confirmation; ConfirmResetsForm states it is the mount form with the date kept |
| PartyHall.CanConfirm | src/pages/PartyHall.tsx:397 | the enabled test of "Complete Booking"; PartyHallPage.ConfirmDisabled is its negation, and InitialFormNotReady and ConfirmResetsForm state when it fails |
| PartyHall.ConfirmResetsForm | src/pages/PartyHall.tsx:131-138 | confirmation returns the form to its mount state except the date, leaves it not confirmable, and is idempotent |
| PartyHall.InitialFormNotReady | src/pages/PartyHall.tsx:108-115 | the mounted form is not confirmable and its defaults are offered options |
| PartyHall.PartyHallPage.constructor | src/pages/PartyHall.tsx:103-115 | the mount state: "All", no hall, dialog closed, the initial form |
| PartyHall.PartyHallPage.ShownHalls | src/pages/PartyHall.tsx:141-143 | the listed halls are exactly those hosting the selected party type |
| PartyHall.PartyHallPage.ConfirmDisabled | src/pages/PartyHall.tsx:397 | the button is disabled exactly when the form is not confirmable |
| PartyHall.PartyHallPage.HandleBookHall | src/pages/PartyHall.tsx:117-120 | selects the hall and opens the dialog; the form is kept |
| PartyHall.PartyHallPage.HandleConfirmBooking | src/pages/PartyHall.tsx:122-139 | closes the dialog and resets the form, keeping hall and date; also exposes the booking price `totalPrice` that the page computes and then discards |
| FitnessCenter.FilteredEquipmentExact | src/pages/FitnessCenter.tsx:154-156 | "All" gives all equipment; otherwise exactly that category, in order |
| FitnessCenter.FilteredEquipment | src/pages/FitnessCenter.tsx:154-156 | `filteredEquipment`; FilteredEquipmentExact states its value |
| FitnessCenter.UniqueEquipmentCategoriesValue | src/pages/FitnessCenter.tsx:158 | the choices are All, Cardio, Strength and Flexibility, in that order |
| FitnessCenter.UniqueEquipmentCategories | src/pages/FitnessCenter.tsx:158 | the category choices; UniqueEquipmentCategoriesValue gives their value |
| FitnessCenter.ReserveDisabled | src/pages/FitnessCenter.tsx:230 | the reserve button's disabled test; NoReserveDisabled states that no catalog piece fails it |
| FitnessCenter.NoReserveDisabled | src/pages/FitnessCenter.tsx:230 | no catalog piece has zero units, so no reserve button is disabled |
| FitnessCenter.FindClass | src/pages/FitnessCenter.tsx:349 | the class found has the selected id; none exactly when none has it |
| FitnessCenter.TimeOptions | src/pages/FitnessCenter.tsx:343-353 | the times the select offers; TimeOptionsFacts and FitnessCenterPage.ShownTimes state them |
| FitnessCenter.CanConfirm | src/pages/FitnessCenter.tsx:402 | the enabled test of "Confirm Booking"; FitnessCenterPage.ConfirmDisabled is its negation, and ConfirmResetsForm and ConfirmReenabled state when it fails and holds |
| FitnessCenter.AfterConfirm | src/pages/FitnessCenter.tsx:149-151 | the form after a confirmation; ConfirmResetsForm and ConfirmReenabled state it |
| FitnessCenter.TimeOptionsFacts | src/pages/FitnessCenter.tsx:343-353 | equipment offers the 15 gym slots; a class offers exactly its times; every offered time is a gym slot |
| FitnessCenter.ConfirmResetsForm | src/pages/FitnessCenter.tsx:149-151 | for every form, after confirming neither mode is confirmable, the date is kept and the duration is an offered value |
| FitnessCenter.ConfirmReenabled | src/pages/FitnessCenter.tsx:338-353 | on a kept date any time the dialog offers makes the reset form confirmable again, in either mode |
| FitnessCenter.FitnessCenterPage.constructor | src/pages/FitnessCenter.tsx:113-120 | the mount state: "All", nothing selected, equipment mode, duration "60" |
| FitnessCenter.FitnessCenterPage.ConfirmDisabled | src/pages/FitnessCenter.tsx:402 | disabled exactly when date or time is missing, or the duration in equipment mode |
| FitnessCenter.FitnessCenterPage.ShownTimes | src/pages/FitnessCenter.tsx:343-353 | equipment mode offers exactly the gym slots; class mode offers exactly the found class's times, or none when no class is found; every time offered is a gym slot |
| FitnessCenter.FitnessCenterPage.HandleBookEquipment | src/pages/FitnessCenter.tsx:122-126 | selects the equipment, switches to equipment mode and opens the dialog |
| FitnessCenter.FitnessCenterPage.HandleBookClass | src/pages/FitnessCenter.tsx:128-132 | selects the class, switches to class mode and opens the dialog |
| FitnessCenter.FitnessCenterPage.HandleConfirmBooking | src/pages/FitnessCenter.tsx:134-152 | closes the dialog, clears the time and resets the duration to "60"; selections and mode are kept |
| BeautySalon.FilteredTreatmentsExact | src/pages/BeautySalon.tsx:114-116 | "All" gives all treatments; otherwise exactly that category, in order |
| BeautySalon.FilteredTreatments | src/pages/BeautySalon.tsx:114-116 | `filteredTreatments`; FilteredTreatmentsExact and MassageFilter state its value |
| BeautySalon.MassageFilter | src/pages/BeautySalon.tsx:114-116 | "Massage" shows treatments 3 and 6 in that order |
| BeautySalon.UniqueTreatmentCategoriesValue | src/pages/BeautySalon.tsx:118 | the choices are All, Nails, Facials, Massage and Hair, in that order |
| BeautySalon.UniqueTreatmentCategories | src/pages/BeautySalon.tsx:118 | the category choices; UniqueTreatmentCategoriesValue gives their value |
| BeautySalon.CanConfirm | src/pages/BeautySalon.tsx:275 | the enabled test of "Confirm Booking"; BeautySalonPage.ConfirmDisabled is its negation, and ConfirmResetsForm and ConfirmReenabled state when it fails and holds |
| BeautySalon.AfterConfirm | src/pages/BeautySalon.tsx:109-111 | the form after a confirmation; ConfirmResetsForm and ConfirmReenabled state it |
| BeautySalon.ConfirmResetsForm | src/pages/BeautySalon.tsx:109-111 | for every form, after confirming it is not confirmable and the date is kept |
| BeautySalon.ConfirmReenabled | src/pages/BeautySalon.tsx:227-255 | on a kept date any offered slot and specialist make the reset form confirmable again |
| BeautySalon.BeautySalonPage.constructor | src/pages/BeautySalon.tsx:89-94 | the mount state: "All", nothing selected, dialog closed, today's date |
| BeautySalon.BeautySalonPage.ShownTreatments | src/pages/BeautySalon.tsx:114-116 | the listed treatments are exactly those of the selected category |
| BeautySalon.BeautySalonPage.ConfirmDisabled | src/pages/BeautySalon.tsx:275 | disabled exactly when date, slot or specialist is missing |
| BeautySalon.BeautySalonPage.HandleBookAppointment | src/pages/BeautySalon.tsx:96-99 | selects the treatment and opens the dialog |
| BeautySalon.BeautySalonPage.HandleConfirmBooking | src/pages/BeautySalon.tsx:101-112 | closes the dialog and clears slot and specialist; treatment and date are kept |
| ResortMovies.GuestValue | src/pages/ResortMovies.tsx:298 | `num.toString()` is the single digit of the number |
| ResortMovies.GuestOptions | src/pages/ResortMovies.tsx:298 | the guest select's values; GuestOptionsValue gives them |
| ResortMovies.GuestOptionsValue | src/pages/ResortMovies.tsx:298 | the guest choices are "1" to "6", distinct |
| ResortMovies.FindMovie | src/pages/ResortMovies.tsx:281 | the film found has the selected id; none exactly when none has it |
| ResortMovies.MovieTimeOptions | src/pages/ResortMovies.tsx:281 | the showtimes the select offers in movie mode; MovieTimeOptionsFacts and ResortMoviesPage.ShownTimes state them |
| ResortMovies.MovieTimeOptionsFacts | src/pages/ResortMovies.tsx:281 | a film offers exactly its three showtimes, none shared with another film |
| ResortMovies.CanConfirm | src/pages/ResortMovies.tsx:312 | the enabled test in each mode; ResortMoviesPage.ConfirmDisabled is its negation, and ConfirmResetsForm and ConfirmReenabled state when it fails and holds |
| ResortMovies.AfterConfirm | src/pages/ResortMovies.tsx:119-121 | the form after a confirmation; ConfirmResetsForm and ConfirmReenabled state it |
| ResortMovies.ConfirmResetsForm | src/pages/ResortMovies.tsx:119-121 | for every form, after confirming a resort booking is confirmable again on a kept date, a movie waits for a showtime, guests are back at "1", and the time never matters for a resort |
| ResortMovies.ConfirmReenabled | src/pages/ResortMovies.tsx:273-289 | on a kept date any showtime the dialog offers makes the reset movie form confirmable again |
| ResortMovies.ResortMoviesPage.constructor | src/pages/ResortMovies.tsx:84-91 | the mount state: nothing selected, movie mode, one guest |
| ResortMovies.ResortMoviesPage.ConfirmDisabled | src/pages/ResortMovies.tsx:312 | disabled exactly when date, time (movie mode only) or guests is missing |
| ResortMovies.ResortMoviesPage.ShownTimes | src/pages/ResortMovies.tsx:273-289 | no time select for a resort; for a movie the offered times are exactly the selected catalog film's showtimes, as a sequence, and none when no film is found |
| ResortMovies.ResortMoviesPage.HandleBookMovie | src/pages/ResortMovies.tsx:93-97 | selects the film, switches to movie mode and opens the dialog |
| ResortMovies.ResortMoviesPage.HandleBookResort | src/pages/ResortMovies.tsx:99-103 | selects the experience, switches to resort mode and opens the dialog |
| ResortMovies.ResortMoviesPage.HandleConfirmBooking | src/pages/ResortMovies.tsx:105-122 | closes the dialog, clears the time and resets guests to "1"; selections and mode are kept |

## Left out

- Rendering: the JSX, widgets, icons, images and CSS are presentation only.
- Side effects: toast notifications and console logging are fire-and-forget and not modelled.
- Storage format: the stored record is `JSON.parse`d without a guard, so a malformed record would throw. The model keeps the slot as a typed `Option<User>`, so that case does not arise. It does not claim that a corrupt record is treated as absent, because the code does not do that.
- Floating point: catering, stationery and resort prices are integer cents. `.toFixed(2)` and float rounding are not modelled.
- Clock: `new Date()` and `getHours()` are parameters (`today`, `hour`), and date formatting is omitted.
- Router: React Router's `navigate`, `Navigate` and `useLocation` become returned or passed paths. Route matching follows the router's default: ASCII letter case and trailing slashes are ignored. Percent-decoding of the location and a base name are not modelled.
- Asynchrony: the `async`/`Promise` wrapper on sign-in is not modelled. The sign-in page's submit handler is not part of this model, and neither are the index redirect page and the not-found page.
- Input attributes: `required`, `min` and `max={capacity}` are browser-enforced and not modelled. No guest-count bound is claimed.
- Input handlers: each `onChange`, `onValueChange` and `onSelect` handler is a plain assignment to the page's public field. The tab switches are omitted.
- PartyHall.CanConfirm: `!duration` is omitted. Duration is a whole number of hours taken from the select, and its string form is never empty, so that test never fires.
- PartyHall.PartyHallPage.HandleConfirmBooking: the duration is a number of hours, not a string passed through `parseInt`.
- FitnessCenter.FitnessCenterPage.HandleConfirmBooking: the lookups feed only the toast text, so they are omitted. The catalog is a constant, so the model cannot change its `availableUnits`.
- Catering.CateringPage.HandleCheckout: the order log's timestamp is not modelled. The outcome carries the items, the room and the total.
- Stationery: the cart is only added to and counted, as in the source. It has no remove.

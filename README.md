# LuxeStay client store and page rules, in Dafny

LuxeStay is a homestay marketplace that runs entirely in the browser. Every
record is kept in `localStorage` under one key per entity, and all access
goes through the `storage` object in `src/utils/storage.ts`. That object
keeps one collection per entity:

- homestays and tourist places;
- bookings and reviews;
- notifications;
- payment methods and support tickets;
- a registry of all users.

It also keeps the signed-in session and a legacy "profile" mirror of it.
Each operation reads a whole collection, builds a new one by appending,
prepending, filtering or mapping, and writes it back.

This project models that store and the page-level rules built on it.

- `types.dfy` (module `Types`) holds the record schemas of `src/types.ts`:
  - one datatype per interface;
  - one enumeration per string-literal union;
  - `Option` for the optional fields;
  - `int` for the numeric booking id and strings for every other id;
  - the subset type `TouristRole` for `Booking.bookedByRole`.
- `storage.dfy` (module `Storage`) holds class `Store`:
  - one `seq` field per key and two `Option<User>` slots;
  - every write method names only its own field in `modifies`, so "no
    other collection changes" and "deletes do not cascade" follow from the
    frame;
  - the pure parts (delete-by-id, registry insert, mark-read, per-user
    selection) are functions, with lemmas proved about them.
- `homestays.dfy` (module `HomestaysPage`) holds the search and filter chain
  and the wishlist toggle of the listing page.
- `booking_modal.dfy` (module `BookingModal`) holds the booking dialog:
  - the guest selector;
  - the three ordered store writes of `handleBooking`.
- `review_system.dfy` (module `ReviewSystem`) holds the review panel:
  - the per-homestay filter;
  - the star and comment inputs;
  - the tourist-only submit handler.
- `host_dashboard.dfy` (module `HostDashboard`) holds the host dashboard:
  - the listing and booking joins;
  - the flat earnings figure;
  - the add and delete handlers.
- `app.dfy` (module `App`) holds the route table and the `ProtectedRoute`
  guard.
- `navbar.dfy` (module `Navbar`) holds the navigation bar:
  - the dashboard link;
  - the unread badge;
  - the bell, which marks notifications read;
  - logout.
- `seqs.dfy` (`Seqs`) and `text.dfy` (`Text`) are helpers:
  - `Array.prototype.filter` as `Filter`, with its "in-order subsequence
    with exact multiplicities" characterisation `IsFilterOf`;
  - `Number.prototype.toString` on integers (`IntToString`, proved
    injective);
  - ASCII `toLowerCase` and `String.prototype.includes`.

Clock reads are parameters of the methods that make them:

- `Date.now()` becomes `stamp`, `bookingStamp`, `listingStamp` and the like.
- `new Date().toISOString()` becomes `date`.

`window.confirm` is the boolean parameter `confirmed`.

## Model

| member | source | states |
|---|---|---|
| Storage.Store.constructor | src/utils/storage.ts:17-110 | With no key ever written, every collection getter reads the empty sequence, every per-user getter reads empty for every user, and getUser reads none |
| Storage.Store.GetUser | src/utils/storage.ts:17-20 | getUser reads the session slot only, never the profile mirror |
| Storage.Store.SetUser | src/utils/storage.ts:21-28 | Setting a user writes it to both the session slot and the profile mirror. Clearing empties only the session and leaves the mirror exactly as it was |
| Storage.Store.GetPaymentMethods | src/utils/storage.ts:30-34 | The result is exactly the stored payment methods with that userId, in stored order and with stored multiplicity |
| Storage.Store.SavePaymentMethod | src/utils/storage.ts:35-39 | Appends at the end of paymentMethods. No other field of the store changes |
| Storage.Store.GetSupportTickets | src/utils/storage.ts:41-45 | The result is exactly the stored tickets with that userId, in stored order and with stored multiplicity |
| Storage.Store.SaveSupportTicket | src/utils/storage.ts:46-50 | Appends at the end of supportTickets. No other field changes |
| Storage.Store.GetHomestays | src/utils/storage.ts:52-55 | Returns the whole stored homestays collection, unfiltered, in stored order |
| Storage.Store.SaveHomestay | src/utils/storage.ts:56-59 | Appends at the end of homestays without an id check. No other field changes |
| Storage.Store.DeleteHomestay | src/utils/storage.ts:60-63 | homestays becomes the delete-by-id filter of its old value. No other collection changes, so bookings and reviews are not cascaded |
| Storage.Store.GetTouristPlaces | src/utils/storage.ts:65-68 | Returns the whole stored tourist places collection, unfiltered, in stored order |
| Storage.Store.SaveTouristPlace | src/utils/storage.ts:69-72 | Appends at the end of touristPlaces. No other field changes |
| Storage.Store.DeleteTouristPlace | src/utils/storage.ts:73-76 | touristPlaces becomes the delete-by-id filter of its old value. No other field changes |
| Storage.Store.GetBookings | src/utils/storage.ts:78-81 | Returns the whole stored bookings collection, unfiltered, in stored order |
| Storage.Store.SaveBooking | src/utils/storage.ts:82-85 | Appends at the end of bookings. No other field changes |
| Storage.Store.DeleteBooking | src/utils/storage.ts:86-89 | Removes every booking whose printed numeric id equals the printed argument. The argument is a number or a string |
| Storage.Store.GetAllUsers | src/utils/storage.ts:92-95 | Returns the whole registry, unfiltered, in stored order |
| Storage.Store.SaveUserToRegistry | src/utils/storage.ts:96-101 | The registry becomes the insert-unless-id-present of its old value |
| Storage.Store.DeleteUser | src/utils/storage.ts:102-105 | The registry becomes the delete-by-id filter of its old value |
| Storage.Store.GetReviews | src/utils/storage.ts:107-110 | Returns every stored review of every homestay, in stored order |
| Storage.Store.SaveReview | src/utils/storage.ts:111-114 | Appends at the end of reviews. No other field changes |
| Storage.Store.GetNotifications | src/utils/storage.ts:116-120 | The result is exactly the stored notifications with that userId, in stored (newest-first) order |
| Storage.Store.AddNotification | src/utils/storage.ts:121-125 | The new notification is at index 0, the old list follows unchanged, and the length grows by one |
| Storage.Store.MarkNotificationsRead | src/utils/storage.ts:126-131 | notifications becomes the mark-read map of its old value |
| Storage.RemoveByIdSpec | src/utils/storage.ts:60-63 | A delete keeps an in-order subsequence. Each record whose key is the id drops to multiplicity 0, and every other record keeps its multiplicity. Deleting an absent id changes nothing |
| Storage.RemoveAfterAppend | src/utils/storage.ts:56-63 | Saving a record and then deleting its id is the same as deleting that id before the save |
| Storage.AppendKeepsDuplicates | src/utils/storage.ts:56-59 | Two saves of records with the same id add two records with that id: saves never de-duplicate |
| Storage.DeleteBookingByNumber | src/utils/storage.ts:86-89 | Deleting by a number keeps exactly the bookings whose id differs from it |
| Storage.DeleteBookingByPaddedText | src/utils/storage.ts:86-89 | The comparison is on printed ids: the string "07" does not delete booking 7 |
| Storage.NoCascadeScenario | src/utils/storage.ts:56-89 | A homestay is saved, a booking for it is saved, and the homestay is deleted. Afterwards no homestay is left, but the booking is still stored |
| Storage.RegisterSpec | src/utils/storage.ts:96-101 | After registering, some user with the id is registered and the old registry is a prefix of the new one. The registry grows by at most one: by exactly that user iff no registered user had the id, and not at all when one already had it |
| Storage.RegisterIdempotent | src/utils/storage.ts:96-101 | Registering the same user twice is the same as registering once |
| Storage.RegisterKeepsIdsUnique | src/utils/storage.ts:96-101 | If registry ids are pairwise distinct before a registration, they are after it |
| Storage.RegisterTwo | src/utils/storage.ts:96-101 | Registering two new users adds two entries, or one when they share an id |
| Storage.MarkedReadSpec | src/utils/storage.ts:126-131 | Position by position, read becomes true exactly on the user's notifications. Every other field and every other notification is unchanged, and the length is kept |
| Storage.MarkedReadIdempotent | src/utils/storage.ts:126-131 | A second mark-read of the same user changes nothing |
| Storage.MarkedReadClearsUser | src/utils/storage.ts:126-131 | Afterwards every notification of the user is read |
| Storage.MarkedReadLeavesOthers | src/utils/storage.ts:126-131 | Every other user's notifications are exactly as before |
| Text.IntToStringInjective | src/utils/storage.ts:87 | Two integers print equally iff they are equal, so comparing `toString()` of two numbers compares the numbers |
| Types.ParseRole | src/types.ts:1 | A parsed role prints back to the literal it was parsed from |
| Types.RolesAreExactlyFour | src/types.ts:1 | The role union has exactly four members with four distinct literals, and each literal parses back to its role |
| Types.BookingRoleIsTourist | src/types.ts:59 | The bookedByRole of every booking is Tourist |
| HomestaysPage.SearchIsOneFilter | src/pages/Homestays.tsx:34-52 | The four chained filters are one filter by the conjunction of the active predicates. The text test is active only for a non-empty search, and the location test only when a location other than 'All Locations' is chosen |
| HomestaysPage.SearchSpec | src/pages/Homestays.tsx:34-51 | The result is an in-order subsequence of the loaded homestays. A homestay is in it iff it is loaded and all of these hold: it matches the text when the search is non-empty; its location equals the chosen one unless 'All Locations'; its price is at most maxPrice; its rating is at least minRating |
| HomestaysPage.DefaultFiltersShowAll | src/pages/Homestays.tsx:20-52 | With the initial filters (empty search, All Locations, 10000, 0) the page shows exactly the loaded homestays priced at most 10000 and rated at least 0, in order. A listing priced above 10000 is hidden, and when every listing is within the bounds the whole list shows |
| HomestaysPage.OverpricedHiddenByDefault | src/pages/Homestays.tsx:48 | A homestay priced above 10000 is not shown at the initial filters
| HomestaysPage.SearchIgnoresCase | src/pages/Homestays.tsx:37-42 | Two search texts that differ only in the case of their letters give the same result list |
| HomestaysPage.SearchFindsNameInAnyCase | src/pages/Homestays.tsx:34-52 | With every location selected, a loaded homestay within the price and rating bounds is shown when its name is searched in any letter case |
| HomestaysPage.ToggleSpec | src/pages/Homestays.tsx:54-56 | The toggled id is in the result iff it was not in the list. Every other id keeps its membership, and a duplicate-free list stays duplicate-free |
| HomestaysPage.ToggleTwice | src/pages/Homestays.tsx:54-56 | Toggling twice restores membership. Starting without the id, it restores the list exactly |
| BookingModal.BookingForm.constructor | src/components/BookingModal.tsx:14-19 | The form opens with empty dates and one guest, not submitting and not succeeded |
| BookingModal.BookingForm.SelectGuests | src/components/BookingModal.tsx:136-145 | Only the offered counts 1 to 6 can be chosen, and the choice becomes the guest count |
| BookingModal.BookingForm.SetCheckIn | src/components/BookingModal.tsx:114 | Picking a check-in date sets it and leaves the guest count valid |
| BookingModal.BookingForm.SetCheckOut | src/components/BookingModal.tsx:126 | Picking a check-out date sets it and leaves the guest count valid |
| BookingModal.BookingForm.HandleBooking | src/components/BookingModal.tsx:21-65 | One booking is appended, with these fields: id, name, location and host copied from the homestay; bookedBy the user; role Tourist; status Confirmed; totalPrice one night's price; guests between 1 and 6. Then the host's unread notification is at index 0 and the tourist's at index 1, ahead of the old list. Only bookings and notifications change in the store |
| BookingModal.InboxesAfterBooking | src/components/BookingModal.tsx:42-58 | When tourist and host differ, each of them sees their own new notification first, followed by exactly what they saw before |
| ReviewSystem.ReviewsForSpec | src/components/ReviewSystem.tsx:17-20 | The displayed reviews are exactly the stored reviews of the homestay, in stored order |
| ReviewSystem.StoredReviewLoadsLast | src/components/ReviewSystem.tsx:36-37 | A review stored for the homestay comes last when the panel is loaded again |
| ReviewSystem.ReviewPanel.constructor | src/components/ReviewSystem.tsx:11-20 | The panel opens with the homestay's stored reviews, rating 5 and an empty comment |
| ReviewSystem.ReviewPanel.SelectStar | src/components/ReviewSystem.tsx:53-57 | A star click sets the rating to that star, one of 1 to 5 |
| ReviewSystem.ReviewPanel.EditComment | src/components/ReviewSystem.tsx:76 | Typing sets the comment and leaves the rating one of the five stars |
| ReviewSystem.ReviewPanel.ChangeHomestay | src/components/ReviewSystem.tsx:17-20 | When the homestay prop changes, the list is reloaded to exactly the new homestay's stored reviews, while the selected rating and the comment keep their values |
| ReviewSystem.ReviewPanel.HandleSubmit | src/components/ReviewSystem.tsx:22-42 | Without a signed-in tourist nothing changes. Otherwise the review is appended to the store and put at the front of the displayed list. It carries the homestay id, the user's id and name, and the selected 1 to 5 rating. The form then resets to rating 5 and an empty comment |
| HostDashboard.HostListingsSpec | src/pages/HostDashboard.tsx:24-26 | The listings are exactly the stored homestays whose hostId is the user's, in stored order |
| HostDashboard.HostBookingsSpec | src/pages/HostDashboard.tsx:28-30 | A booking is shown iff it is stored and its homestayId is the id of one of the listings. Booking.hostId plays no part |
| HostDashboard.EarningsFromCount | src/pages/HostDashboard.tsx:95 | The reduce from a running total adds 2500 per booking |
| HostDashboard.EarningsAreFlat | src/pages/HostDashboard.tsx:95 | Earnings are 2500 times the number of bookings, so two booking lists of equal length earn the same whatever their prices |
| HostDashboard.AddedListingShowsLast | src/pages/HostDashboard.tsx:49-50 | Appending a host's listing to the store appends it to what the dashboard derives for that host |
| HostDashboard.DeleteCommutesWithListings | src/pages/HostDashboard.tsx:65-69 | Deleting an id and selecting a host's listings commute |
| HostDashboard.Dashboard.constructor | src/pages/HostDashboard.tsx:20-32 | With a user, the listings are that host's stored homestays and the bookings are the stored bookings of those listings. Without a user both are empty |
| HostDashboard.Dashboard.TotalEarnings | src/pages/HostDashboard.tsx:95 | The earnings figure is 2500 times the number of bookings on screen |
| HostDashboard.Dashboard.HandleAddHomestay | src/pages/HostDashboard.tsx:34-63 | Without a user nothing changes. Otherwise the new listing (the user as host, rating 5.0, the default image when none is given) is appended to the store and to the list on screen. One unread notification for the host is prepended, and the list on screen stays in step with the store |
| HostDashboard.Dashboard.HandleDelete | src/pages/HostDashboard.tsx:65-70 | Once confirmed, the id is deleted from the store and from the list on screen, and the two stay in step. Unconfirmed, nothing changes |
| App.ProtectedRoute | src/App.tsx:16-21 | The children render iff there is a user and either no role list is given or the role is in it. Without a user the route redirects to /login; with a role not in the list it redirects to / |
| App.DashboardAdmitsOneRole | src/App.tsx:37-67 | Each dashboard path shows its page to its own role only. Other signed-in users go to /, and visitors go to /login |
| App.SettingsAdmitsAnyUser | src/App.tsx:70-77 | The settings page admits every signed-in user and sends visitors to /login |
| App.PublicPagesNeedNoUser | src/App.tsx:30-34 | /, /login, /homestays and /attractions render without a user |
| App.UnmatchedRedirectsHome | src/App.tsx:80 | A path that no route declares redirects to / |
| Navbar.DashboardLink | src/components/Navbar.tsx:37-46 | The link is /login exactly when no user is signed in |
| Navbar.DashboardLinkIsAdmitted | src/components/Navbar.tsx:37-46 | A signed-in user's link is the dashboard path that the router admits for that role, and following it shows that role's dashboard. Different roles get different links |
| Navbar.UnreadCountSpec | src/components/Navbar.tsx:35 | The badge never exceeds the list, and it is zero iff every notification in the list is read |
| Navbar.NoUnreadAfterMarking | src/components/Navbar.tsx:75-80 | After the bell marks a user's notifications read, a fresh load of that user's notifications has an unread count of zero |
| Navbar.Bar.constructor | src/components/Navbar.tsx:14-19 | On mount, the user is the session. The list is that user's stored notifications, or empty without a user. The panel is closed |
| Navbar.Bar.Reload | src/components/Navbar.tsx:14-28 | When the location changes, the session is re-read, and with a user the list is that user's stored notifications. Without a user the previous list stays |
| Navbar.Bar.ClickBell | src/components/Navbar.tsx:75-80 | The panel flips. Opening it marks the user's stored notifications read; closing it leaves the store unchanged |
| Navbar.Bar.HandleLogout | src/components/Navbar.tsx:30-33 | The session becomes none and the profile mirror is left as it was |

## Left out

- **Storage internals.** The JSON round trip through `localStorage` is taken to be exact. Quota and availability exceptions and corrupt stored values are not modelled. The code handles none of them.
- **The settings key.** `KEYS.SETTINGS` (`src/utils/storage.ts:10`) is never read or written, so there is nothing to model.
- **Presentation.** Rendering, animations, `navigate(...)` calls, hover state (`hoveredRating`), the add-form visibility and the form-field resets after adding a listing (`src/pages/HostDashboard.tsx:51-54`) are left out. `window.confirm` is a boolean parameter.
- **Browser form gates.** The `required` attributes on the booking dates (`src/components/BookingModal.tsx:112`, `:124`), the review comment (`src/components/ReviewSystem.tsx:74`) and the listing name, price and description (`src/pages/HostDashboard.tsx:202`, `:221`, `:237`), and `disabled={isSubmitting}` on the booking button (`src/components/BookingModal.tsx:149`), are enforced by the browser. The handlers in the model accept empty fields and a second submission. No contract depends on these gates.
- **Timers.** The notification poll (`src/components/Navbar.tsx:22-27`) and the success-banner `setTimeout` (`src/components/BookingModal.tsx:61-64`) are time-driven and cosmetic. The poll keeps the user it captured when the effect ran and reloads that user's notifications without touching the user on screen. `Navbar.Bar.Reload` instead models the effect re-run on navigation: it re-reads the session, so the two differ after the session changes without a navigation.
- **Clock reads.** These are parameters, so nothing is claimed about id uniqueness or about the host notification id being the tourist's plus one.
- **Floating point.**
  - Ratings are `real` and are only compared.
  - `parseInt(price)` is taken to yield an integer: its NaN case is not modelled.
  - `Number.prototype.toString` is modelled for integers in plain decimal only, not for the exponent form from 1e21 upwards.
- HomestaysPage.TextMatches: lowercasing is ASCII only; Unicode case mapping is not modelled.
- **Route matching.** react-router matches paths case-insensitively and with an optional trailing slash. The route table matches exact strings only.
- Navbar.DashboardLink: the `default: return '/'` branch of the switch cannot be reached with the four-role enumeration, so the model has no such case.
- HostDashboard.Dashboard.HandleDelete: the handler itself has no user guard, so the model has none either. The page renders nothing without a user (`src/pages/HostDashboard.tsx:72`), so without a user the handler cannot be clicked. Only the add handler returns early without a user (line 36).
- **Other pages.** The tourist, guide and admin dashboards, Settings, Login, Home, Attractions and HomestayDetails only call store operations that are already modelled here, or repeat the search predicate. They are not part of this model.

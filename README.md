# Community manager front-end: a verified model of its state logic

This project models, in Dafny, the little logic of a single-page community
management site (events, calendar, classified ads, administration panel, login).
Everything the site keeps is local component state, so the model covers five
pieces:

- **the application shell** (`src/App.tsx`). It holds the current page name and
  two session flags, logged-in and administrator. The `navigate`, `login` and
  `logout` handlers change them. The page switch mounts one view and guards the
  admin dashboard a second time. Module `Session` has a class `App` with the
  three state cells and the three handlers. The pure `Render` is the switch.
  `Step`/`Run` state each handler's effect on a snapshot, so that properties of
  whole sequences of user actions can be proved.
- **the administration dashboard** (`src/components/AdminDashboard.tsx`). It has
  three moderation tables: users, events and classified ads. Users and events can
  be deleted. A classified ad can be approved (its status set to `Aprobado`) or
  rejected (removed). The counters above the tables are the table lengths.
  Module `Admin` has the class `AdminDashboard`. Deleting by id is the shared
  `Lists.WithoutId`.
- **the classified-ads board** (`src/components/ClassifiedsPage.tsx`). A new ad is
  prepended with id `length + 1`. The browse filter is a case-insensitive substring
  search on title or description, combined with a category selector that has an
  `all` entry. There is also a category colour lookup. Module `Classifieds`
  proves that the board's ids are always exactly `1..length`, because the board
  never deletes.
- **the events page** (`src/components/EventsPage.tsx`). Create appends with id
  `length + 1` and zero attendees. Delete is by id. "Edit" only pre-fills the
  form: submitting it still runs create. Module `Events` keeps that behaviour. It
  proves that deleting and then creating can duplicate an id.
- **the calendar page** (`src/components/CalendarPage.tsx`). It has a fixed event
  list and the projections drawn from it: the next five events, the events of
  the month cursor, and the total, this-month and next-30-days counters. Module
  `Calendar` models these as pure functions. Dates are millisecond timestamps.
  The moment of rendering is a parameter. So is the host's local-time breakdown
  of an instant into month and year.

`Lists` holds the list operation every page shares: `filter`, as `Keep`. Its contract says that the result is an order-preserving subsequence
whose elements all pass, with as many elements as pass. `KeepIsUnique` proves
that these three facts determine the result. So "removes exactly the matches and
keeps the rest in order" is proved once, and reused by every delete and filter.

Behaviour of the code worth noting:

- A page name need not be a known identifier. `handleNavigate` casts any string,
  and the switch renders the home view for unknown names.
- Delete-by-id removes *every* record with that id, not exactly one. The events
  page can hold two records with the same id (`Events.DeleteThenCreateDuplicatesId`).
- The public classifieds page has no delete. Only the dashboard's separate copy
  of the ads can lose records.
- Approval sets `Aprobado` on the matching record whatever its status was.

## Model

| member | source | states |
|---|---|---|
| Session.Render | src/App.tsx:40-61 | each known page name mounts its own view, and that view only for that name: `login`, `events`, `calendar`, `classifieds`, `contact`, `brand`; the admin dashboard iff the page is `admin` and the session is an administrator's; `admin` without the flag, `home` and every unknown page render home; the events view receives the admin flag and the classifieds view the logged-in flag |
| Session.Step | src/App.tsx:22-38 | every handler maps a consistent session (admin ⇒ logged in) to a consistent one; navigation never touches the flags |
| Session.RunKeepsConsistent | src/App.tsx:18-38 | any sequence of navigate/login/logout from a consistent state ends in a consistent state |
| Session.ReachableStatesAreSafe | src/App.tsx:18-59 | from application start, every reachable state has admin ⇒ logged in, and renders the dashboard only for a logged-in administrator |
| Session.GuardedNavigationIsNoOp | src/App.tsx:23-25 | `navigate("admin")` without the admin flag leaves page and both flags unchanged |
| Session.NavigationHonoured | src/App.tsx:26 | any other request sets the page to the requested name, unknown names included, and keeps both flags |
| Session.LogoutResets | src/App.tsx:34-38 | logout from any state gives page `home`, not logged in, not admin |
| Session.AdminLoginOpensDashboard | src/App.tsx:22-32 | `login(true)` then `navigate("admin")` reaches page `admin` and renders the dashboard, from any state |
| Session.LoginFormFlow | src/components/LoginPage.tsx:19-24 | the login form's `login(b); navigate("home")` always ends on `home`, logged in, admin flag `b` |
| Session.App.constructor | src/App.tsx:18-20 | the shell starts on `home`, logged out, not admin |
| Session.App.HandleNavigate | src/App.tsx:22-27 | guarded page change; flags unchanged; consistency kept |
| Session.App.HandleLogin | src/App.tsx:29-32 | logged in, admin flag as given, page unchanged |
| Session.App.HandleLogout | src/App.tsx:34-38 | back to the initial state |
| Session.App.RenderPage | src/App.tsx:40-61 | the view mounted for the current state cells is the page switch's view for them, so an administrator on `admin` gets the dashboard and every other page its own view or home; in a consistent state the dashboard view implies a logged-in administrator |
| Lists.WithoutId | src/components/AdminDashboard.tsx:61-64 | delete-by-id yields an order-preserving subsequence holding exactly the records whose id differs; its length drops by the number of matching records |
| Lists.Keep | src/components/AdminDashboard.tsx:62 | the array filter: an order-preserving subsequence of passing elements, as many as pass; an element of the list is in it iff it passes |
| Lists.KeepIsUnique | src/components/AdminDashboard.tsx:62 | the filter result is the only order-preserving selection of passing elements with that many elements |
| Lists.KeepMultiplicity | src/components/CalendarPage.tsx:64 | the filter keeps every copy of a passing element and no copy of a failing one |
| Lists.WithoutAbsentId | src/components/EventsPage.tsx:82-85 | deleting an id no record carries leaves the list unchanged |
| Lists.WithoutIdIdempotent | src/components/AdminDashboard.tsx:66-69 | deleting the same id twice equals deleting it once |
| Lists.WithoutIdKeepsDistinctIds | src/components/AdminDashboard.tsx:61-69 | deletion never creates duplicate ids |
| Admin.Approve | src/components/AdminDashboard.tsx:71-76 | same length; records with that id get status `Aprobado` and keep every other field; all other records are unchanged |
| Admin.ApproveIdempotent | src/components/AdminDashboard.tsx:72-74 | approving twice equals approving once |
| Admin.ApproveKeepsIds | src/components/AdminDashboard.tsx:72-74 | approval keeps every id in place, hence keeps ids distinct |
| Admin.ActionsFor | src/components/AdminDashboard.tsx:288-317 | approve and reject are offered iff the status is `Pendiente`; removal iff it is `Aprobado` |
| Admin.Moderate | src/components/AdminDashboard.tsx:294-313 | the approve button runs the approve rewrite of the table (same length); the reject and remove buttons both run delete-by-id, leaving no record with that id |
| Admin.RejectIgnoresStatus | src/components/AdminDashboard.tsx:78-81 | the reject button and the remove button have the same effect, dropping the record whatever its status |
| Admin.DeleteUserCounter | src/components/AdminDashboard.tsx:33 | with distinct ids, deleting a present user lowers the user counter by one and deleting an absent one leaves it |
| Admin.AdminDashboard.Stats | src/components/AdminDashboard.tsx:30-59 | the three numeric counters are the current lengths of users, events and ads |
| Admin.AdminDashboard.constructor | src/components/AdminDashboard.tsx:11-28 | the three tables start as the fixed initial users, events and ads, with distinct ids in each |
| Admin.InitialTablesDistinct | src/components/AdminDashboard.tsx:11-28 | the initial tables hold 4 users, 3 events and 3 ads, each table with distinct ids, and exactly the third ad is `Pendiente` |
| Admin.AdminDashboard.DeleteUser | src/components/AdminDashboard.tsx:61-64 | users become the delete-by-id result; events and ads are untouched |
| Admin.AdminDashboard.DeleteEvent | src/components/AdminDashboard.tsx:66-69 | events become the delete-by-id result; users and ads are untouched |
| Admin.AdminDashboard.ApproveClassified | src/components/AdminDashboard.tsx:71-76 | ads become the approved table; users and events are untouched |
| Admin.AdminDashboard.RejectClassified | src/components/AdminDashboard.tsx:78-81 | ads lose the records with that id; users and events are untouched |
| Classifieds.Lower | src/components/ClassifiedsPage.tsx:93-94 | lowering keeps the length and lowers each character |
| Classifieds.Includes | src/components/ClassifiedsPage.tsx:93-94 | `includes` is true iff the needle occurs at some position of the text |
| Classifieds.Filtered | src/components/ClassifiedsPage.tsx:92-97 | the browse result is an order-preserving subsequence; an ad is in it iff the lowered search text occurs in its lowered title or description and the category is `all` or the ad's own |
| Classifieds.DefaultFilterShowsAll | src/components/ClassifiedsPage.tsx:68-69 | with the initial empty search and `all` category the whole board is shown |
| Classifieds.SearchIgnoresCase | src/components/ClassifiedsPage.tsx:93-94 | searching with the lowered text gives the same result as the text as typed |
| Classifieds.CategoryColor | src/components/ClassifiedsPage.tsx:99-107 | total: a known category gets its own colour; any other category gets the gray default; never empty |
| Classifieds.EveryOfferedCategoryHasColor | src/components/ClassifiedsPage.tsx:71 | each of the four selectable categories has a colour entry |
| Classifieds.Published | src/components/ClassifiedsPage.tsx:76-87 | publishing prepends: the old board follows unchanged; the new ad has id length+1, author `Usuario`, the given date and the form's fields |
| Classifieds.PublishKeepsIdsExact | src/components/ClassifiedsPage.tsx:77 | if the ids are pairwise distinct and exactly 1..n, after publishing they are distinct and exactly 1..n+1 |
| Classifieds.InitialIdsExact | src/components/ClassifiedsPage.tsx:31-65 | the three initial ads have ids exactly 1..3 |
| Classifieds.PublishedAdFoundByCategory | src/components/ClassifiedsPage.tsx:87-95 | a new "Test" ad in `Venta` is found by the `Venta` filter and not by the `Servicios` filter |
| Classifieds.ClassifiedsBoard.constructor | src/components/ClassifiedsPage.tsx:31-69 | initial ads, dialog closed, empty search, category `all`, id invariant established |
| Classifieds.ClassifiedsBoard.Visible | src/components/ClassifiedsPage.tsx:92-97 | the listed ads are the browse filter of the board for the current search text and category: a subsequence of the board, the whole board under the default filter |
| Classifieds.ClassifiedsBoard.CreateClassified | src/components/ClassifiedsPage.tsx:73-90 | the board becomes the published list, the dialog closes, the filter is unchanged, the id invariant holds |
| Classifieds.ClassifiedsBoard.SetDialogOpen | src/components/ClassifiedsPage.tsx:120 | opening or closing the dialog changes nothing else |
| Classifieds.ClassifiedsBoard.SetSearchTerm | src/components/ClassifiedsPage.tsx:233 | only the search text changes |
| Classifieds.ClassifiedsBoard.SetFilterCategory | src/components/ClassifiedsPage.tsx:237 | only the category selection changes |
| Events.Appended | src/components/EventsPage.tsx:67-77 | create appends: the old list is a prefix; the new event has id length+1, 0 attendees, the stock image and the form's fields |
| Events.EditSubmitAppendsCopy | src/components/EventsPage.tsx:126-175 | submitting the form pre-filled from event k leaves event k where and as it was, and appends a copy with a new id and no attendees |
| Events.Prefill | src/components/EventsPage.tsx:132-175 | the edit dialog shows each of the event's title, description, date, time and location in its own field |
| Events.DeleteThenCreateDuplicatesId | src/components/EventsPage.tsx:68 | from the initial ids 1,2,3, deleting 1 and then creating gives two events with id 3 |
| Events.Controls | src/components/EventsPage.tsx:234-262 | edit and delete on each card, like the create dialog, are offered iff the viewer is an administrator; register iff not |
| Events.EventsPage.constructor | src/components/EventsPage.tsx:28-62 | initial events, dialog closed, nothing being edited |
| Events.EventsPage.CreateEvent | src/components/EventsPage.tsx:64-80 | the list becomes the appended list and the dialog closes; the edited event is not cleared |
| Events.EventsPage.DeleteEvent | src/components/EventsPage.tsx:82-85 | the list becomes the delete-by-id result; dialog state unchanged |
| Events.EventsPage.EditEvent | src/components/EventsPage.tsx:87-90 | remembers the event and opens the dialog; the list is unchanged |
| Events.EventsPage.OpenCreateDialog | src/components/EventsPage.tsx:105-108 | the create trigger clears the edited event and opens the dialog |
| Events.EventsPage.CloseDialog | src/components/EventsPage.tsx:185 | cancel closes the dialog and keeps the list and the edited event |
| Calendar.SortByDate | src/components/CalendarPage.tsx:65 | the sort returns the same events (as a multiset), ascending by date |
| Calendar.NotPastEvents | src/components/CalendarPage.tsx:64 | an order-preserving subsequence holding exactly the events dated at or after now |
| Calendar.Upcoming | src/components/CalendarPage.tsx:63-66 | at most five events, min(5, number not past) of them; all dated at or after now; ascending; drawn from the list; any not-past event shown fewer times than the list holds it is no earlier than every one shown, so repeated records are counted copy by copy |
| Calendar.MonthEvents | src/components/CalendarPage.tsx:224-229 | an order-preserving subsequence holding exactly the events whose month and year equal the cursor's |
| Calendar.NextThirtyDaysCount | src/components/CalendarPage.tsx:195-199 | the number of events in [now, now + 2,592,000,000 ms]; never more than the not-past events |
| Calendar.EventDates | src/components/CalendarPage.tsx:68 | one date per event, in the same order |
| Calendar.Summary | src/components/CalendarPage.tsx:173-200 | the total is the list length; "Este Mes" is the length of the month list and at most the total; "Próximos 30 días" is the 30-day count, at most the not-past count, which is at most the total |
| Calendar.InitialState | src/components/CalendarPage.tsx:17-18 | on mount the selected day and the month cursor are both the moment of rendering |
| Calendar.InitialMonthIsCurrent | src/components/CalendarPage.tsx:17-18 | on mount the month list holds exactly the events of the month the page is rendered in |
| Calendar.Render | src/components/CalendarPage.tsx:63-229 | the page for one state is exactly the upcoming list, the highlighted event dates, the summary counters and the month list for the state's month cursor; hence at most five upcoming events, none past, one highlighted date per event, a total counting every event, and "Este Mes" counting the month list, which holds only events of the cursor's month |
| Calendar.CursorMovesOnlyMonthProjections | src/components/CalendarPage.tsx:101-103 | changing the month cursor or the selected day changes neither the upcoming list, the highlighted dates, the total nor the 30-day count |
| Calendar.MockEventsSorted | src/components/CalendarPage.tsx:20-61 | the five fixed events are listed in date order |
| Calendar.MockUpcomingBeforeFirst | src/components/CalendarPage.tsx:20-66 | on 15 October 2025 the upcoming list is the five events in list order |
| Calendar.MockUpcomingAfterLast | src/components/CalendarPage.tsx:20-66 | after 25 November 2025 begins the upcoming list is empty |

## Left out

- Rendering, CSS classes, icons, images, dialogs, tabs, tables and the calendar
  widget are presentation from a UI library that is not part of this model. Only
  the state they change and the controls they offer are modelled.
- Toast notifications are side effects in a foreign library. Every handler's
  notification is left out.
- The theme store, its persistence in browser storage, and the brand-guidelines
  page (clipboard write and a timed reset) are I/O and timers. The contact, home
  and footer pages and the header hold no state logic. The login page is covered
  only by its one effect, `Session.LoginFormFlow`.
- Session.App: React batching and stale closures are not modelled. Each handler
  is an atomic update of the state cells.
- Classifieds.Lower: only ASCII letters are lowered. Full Unicode `toLowerCase`
  (accented capitals such as `Á`) is not modelled.
- Classifieds.CategoryColor: the lookup object inherits JavaScript's object
  prototype. So a category named `constructor` or `toString` would return a
  function, not a string. The selectors never offer such names, so the model
  treats the lookup as a plain map.
- Classifieds.Published: the creation date is an opaque string parameter. The
  locale formatting of the current date is not modelled.
- The publish button is disabled for logged-out visitors, and "Publicar Primer
  Aviso" is shown only to logged-in ones. These are widget attributes; the
  handler itself does not check the flag.
- Browser required-field validation runs before a handler. The handlers accept
  any form values, empty ones included.
- The events page's register button only shows a notification. It does not
  change the attendee count, so it has no state effect to model.
- The dashboard's edit buttons have no handler. The fixed "Participación 78%"
  counter and the percentage-change labels are constants.
- Calendar: the rendering moment `now` is a single parameter. The source calls
  `new Date()` and `Date.now()` separately for each projection, so the instants
  can differ by the few milliseconds a render takes.
- Calendar: month and year come from the host's local time zone. They are the
  parameter `cal`. The fixed events' timestamps are taken at midnight UTC.
- Calendar.SortByDate: the result is proved sorted and a permutation. The
  stability of the JavaScript sort on equal dates is not stated.
- Ids and counters are unbounded integers. JavaScript's floating-point numbers
  lose precision only far beyond any list length these pages reach.

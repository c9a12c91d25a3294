# Helpdesk ticket pages: a Dafny model

This project models the decision logic of three pages of a helpdesk web front end,
in which users file support tickets and administrators triage them:

- **Ticket** (`frontend/src/pages/Ticket.jsx`) shows one ticket. The model has its hook state as the class
  `TicketDetail.TicketPage`. The fetch effect and the handlers (close, user save,
  admin save, field changes, entering and leaving edit mode) are methods. Their
  contracts state the whole new state and the request body sent. Which controls
  are rendered for a role and a status, where the page navigates, the status
  style and the six-character case reference are pure functions.
- **Admin dashboard** (`frontend/src/pages/AdminDashboard.jsx`) lists all tickets. The model covers the
  admin gate of its effect, the two-stage filter (status, then search) and the
  four counters. It is pure: the fetched list, the filter and the search term are
  parameters.
- **Tickets** (`frontend/src/pages/Tickets.jsx`) lists the user's own tickets. The model covers the search,
  the total and active counters, the status badge and the empty-state condition.

Shared modules: `Domain` holds the ticket record, the user and request outcomes.
`Seqs` holds an order-preserving `Filter`, `Count` and a subsequence relation, with
their lemmas. `Text` holds ASCII case mapping, `includes` as `Contains`, and
`slice(-n)` as `TakeLast`.

The network is never modelled. The outcome of each request (`Succeeded(data)` or
`Failed`) and the user's answer to the delete confirmation are inputs. Request
bodies are returned as `map<string, string>`, and navigation targets as a `Route`.

Some behaviour a helpdesk might be expected to have is not implemented by these
pages, and the model does not add it:
- No page compares the signed-in user with the ticket's owner.
- Administrators are never offered the content EDIT button.
- `onTicketClose` itself does not check the current status. Only the rendering of
  the CLOSE button does.
- No request carries a version, and there is no conflict handling.

## Model

| member | source | states |
|---|---|---|
| `TicketDetail.TicketPage.constructor` | frontend/src/pages/Ticket.jsx:11-21 | no ticket, spinner on, not editing, every text field empty |
| `TicketDetail.TicketPage.FetchTicket` | frontend/src/pages/Ticket.jsx:27-56 | no user: nothing happens; fetched ticket: it becomes the page's ticket, the status mirror and the edit fields copy its status/title/description/priority, the reply field is its reply or `''`, spinner off; failed fetch: only the spinner goes off; edit mode never changes |
| `Domain.ReplyText` | frontend/src/pages/Ticket.jsx:37 | the reply field starts as the ticket's reply, or `''` when the ticket has none |
| `TicketDetail.TicketPage.OnAdminUpdate` | frontend/src/pages/Ticket.jsx:58-74 | non-admin: no request and no state change; admin: body has exactly the keys `status` and `adminReply` with the selected values; on success the response replaces the ticket, on failure nothing changes |
| `TicketDetail.TicketPage.OnUserUpdate` | frontend/src/pages/Ticket.jsx:76-95 | called only with a non-empty title and description (both inputs are `required`, line 216 and 238, so the form does not submit otherwise); body has exactly `title`, `description`, `priority` from the edit fields; success replaces the ticket and leaves edit mode; failure changes nothing (edit mode stays) |
| `TicketDetail.DeleteOutcome` | frontend/src/pages/Ticket.jsx:97-116 | a request is sent iff the user confirms; navigation happens iff confirmed and successful, to `/admin` for an admin and `/tickets` otherwise |
| `TicketDetail.TicketPage.OnTicketClose` | frontend/src/pages/Ticket.jsx:118-132 | body is `{status: 'Closed'}`; success sets the ticket's status and the status mirror to `Closed`, keeps every other ticket field, hides EDIT/CLOSE and sends a non-admin to `/tickets` (admin stays); failure changes nothing |
| `TicketDetail.Closing` | frontend/src/pages/Ticket.jsx:124 | the closed copy has status `Closed` and every other field of the original |
| `TicketDetail.CloseRoute` | frontend/src/pages/Ticket.jsx:127 | no navigation iff the role is `admin`, otherwise the records list |
| `TicketDetail.ListRoute` | frontend/src/pages/Ticket.jsx:168-173 | back button and breadcrumb go to the dashboard iff admin, else to the records list |
| `TicketDetail.NavigationAgrees` | frontend/src/pages/Ticket.jsx:107-173 | delete, close and back agree on the role's list (`/admin` or `/tickets`) |
| `TicketDetail.TicketPage.View` | frontend/src/pages/Ticket.jsx:134-145 | spinner while loading; the detail view iff loaded with a ticket; otherwise "Ticket Not Found" |
| `TicketDetail.StatusClass` | frontend/src/pages/Ticket.jsx:147-155 | total; `bg-secondary` iff the status is none of the four; `Closed` gets `bg-danger` |
| `TicketDetail.StatusClassesDistinct` | frontend/src/pages/Ticket.jsx:147-155 | the four statuses get four different classes |
| `TicketDetail.CaseReference` | frontend/src/pages/Ticket.jsx:169 | length is min(6, id length); character i is the upper-cased character at the same place among the id's last characters |
| `TicketDetail.ShortIdShownWhole` | frontend/src/pages/Ticket.jsx:169 | an id of at most six characters is shown whole, upper-cased |
| `TicketDetail.Controls` | frontend/src/pages/Ticket.jsx:183-348 | EDIT and CLOSE appear together, iff role is not `admin`, not editing and status is not `Closed`; control panel and delete iff admin, help note otherwise; edit form iff editing, details card otherwise |
| `TicketDetail.AdminNeverOfferedEdit` | frontend/src/pages/Ticket.jsx:183 | the control panel and the EDIT button never appear together; an admin never sees CLOSE |
| `TicketDetail.TicketPage.StartEditing` | frontend/src/pages/Ticket.jsx:185 | only while EDIT is shown; sets edit mode and nothing else; afterwards the form is shown and EDIT/CLOSE are not |
| `TicketDetail.TicketPage.CancelEditing` | frontend/src/pages/Ticket.jsx:204-245 | callable whenever the form is open (the page invariant puts a loaded ticket under it); leaves edit mode, keeps the detail view and keeps the drafts (they are not reset) |
| `TicketDetail.TicketPage.ChangeField` | frontend/src/pages/Ticket.jsx:211-331 | each input's change writes exactly its own piece of state |
| `AdminDashboard.PageEffect` | frontend/src/pages/AdminDashboard.jsx:18-44 | redirect to `/` iff a non-admin is signed in; fetch all tickets iff an admin is signed in; never both; neither when nobody is signed in |
| `AdminDashboard.MatchesText` | frontend/src/pages/AdminDashboard.jsx:55-56 | true iff the lower-cased term occurs at some index of the lower-cased title, or of the lower-cased requester name when there is one |
| `AdminDashboard.MatchesSearch` | frontend/src/pages/AdminDashboard.jsx:54-58 | true iff the text part matches or the term, as typed, occurs at some index of the id |
| `AdminDashboard.StatusStage` | frontend/src/pages/AdminDashboard.jsx:49-51 | `'All'` keeps the list unchanged; otherwise every kept ticket has exactly the filter status; only tickets of the list are kept |
| `AdminDashboard.SearchStage` | frontend/src/pages/AdminDashboard.jsx:53-59 | an empty term keeps the list unchanged; otherwise every kept ticket matches the search; only tickets of the list are kept |
| `AdminDashboard.FilteredTickets` | frontend/src/pages/AdminDashboard.jsx:46-62 | no longer than the list, and every listed ticket passes both stages (`Selected`) |
| `AdminDashboard.FilteredIsOneFilter` | frontend/src/pages/AdminDashboard.jsx:46-62 | the two stages equal one order-preserving filter by the reference predicate `Selected` |
| `AdminDashboard.FilteredSelection` | frontend/src/pages/AdminDashboard.jsx:46-62 | the result is a subsequence of all tickets, and a ticket is in it iff it is in the list and passes both stages |
| `AdminDashboard.UnfilteredListsAll` | frontend/src/pages/AdminDashboard.jsx:48-53 | filter `'All'` with an empty term lists every ticket in order |
| `AdminDashboard.LowerTermSearch` | frontend/src/pages/AdminDashboard.jsx:54-58 | for every term and ticket: lower-casing the term leaves the title/name part unchanged, and the whole search then matches iff the text part matches for the original term or the id contains the lower-cased term |
| `AdminDashboard.IdSearchIsCaseSensitive` | frontend/src/pages/AdminDashboard.jsx:57 | id `ab` is found by the term `ab` but not by `AB` |
| `Domain.CountHasStatus` | frontend/src/pages/AdminDashboard.jsx:105-106 | counting the tickets of one status gives that status's multiplicity among the tickets' statuses |
| `Domain.CountFinished` | frontend/src/pages/AdminDashboard.jsx:107 | counting `Resolved` or `Closed` tickets gives the number of `Resolved` statuses plus the number of `Closed` statuses |
| `AdminDashboard.DashboardStats` | frontend/src/pages/AdminDashboard.jsx:103-107 | total is the number of tickets; pending is the number of `Open` statuses, active the number of `In Progress` ones, resolved the number of `Resolved` plus `Closed` ones; each counter is at most the total |
| `AdminDashboard.StatsPartition` | frontend/src/pages/AdminDashboard.jsx:103-107 | pending + active + resolved ≤ total, with equality when every status is one of the four |
| `AdminDashboard.StatsIgnoreFilters` | frontend/src/pages/AdminDashboard.jsx:103-107 | the counters are the same for every filter and search term: they count all tickets |
| `AdminDashboard.StatusBadge` | frontend/src/pages/AdminDashboard.jsx:66-74 | total; the secondary style iff the status is none of the four |
| `AdminDashboard.StatusBadgesDistinct` | frontend/src/pages/AdminDashboard.jsx:66-74 | the four statuses get four different styles |
| `AdminDashboard.DashboardScreen` | frontend/src/pages/AdminDashboard.jsx:64-210 | the overview is shown iff the session is known and the user is an admin; total is the fetched count (0 after a failed first fetch); the counters are `DashboardStats` of the fetched list (all 0 after a failed first fetch); "no matching tickets" iff no row is listed |
| `AdminDashboard.OverviewRows` | frontend/src/pages/AdminDashboard.jsx:46-62 | after a successful fetch the overview's rows are a subsequence of the fetched tickets, and a ticket is a row iff it was fetched and passes both stages |
| `AdminDashboard.NoMatchesIff` | frontend/src/pages/AdminDashboard.jsx:46-62 | after a successful fetch "no matching tickets" is shown iff no fetched ticket passes both stages |
| `TicketList.FetchesTickets` | frontend/src/pages/Tickets.jsx:34-36 | the user's tickets are requested iff someone is signed in |
| `TicketList.MatchesTerm` | frontend/src/pages/Tickets.jsx:40-43 | true iff the lower-cased term occurs at some index of the lower-cased title or of the lower-cased description |
| `TicketList.FilteredTickets` | frontend/src/pages/Tickets.jsx:39-44 | no longer than the list; every listed ticket matches the term in its title or description |
| `TicketList.FilteredSelection` | frontend/src/pages/Tickets.jsx:39-44 | the result is a subsequence of the tickets; a ticket is listed iff it is in the list and lower(title) or lower(description) contains lower(term) |
| `TicketList.EmptyTermListsAll` | frontend/src/pages/Tickets.jsx:41-42 | the empty term lists every ticket, in order |
| `TicketList.SearchIgnoresCase` | frontend/src/pages/Tickets.jsx:41-42 | searching for a term and for its lower-cased form lists the same tickets |
| `TicketList.ActiveCount` | frontend/src/pages/Tickets.jsx:103 | active ≤ total, and active is the total minus the number of `Closed` and of `Resolved` statuses |
| `TicketList.ActivePartition` | frontend/src/pages/Tickets.jsx:98-103 | active tickets plus `Closed`/`Resolved` ones equal the total |
| `TicketList.StatusBadge` | frontend/src/pages/Tickets.jsx:149-152 | danger style iff the status is none of Open, In Progress, Resolved; so `Closed` and unknown statuses are danger |
| `TicketList.StatusBadgesDistinct` | frontend/src/pages/Tickets.jsx:149-151 | Open, In Progress and Resolved get three different badges, none of them the danger style |
| `TicketList.ListScreen` | frontend/src/pages/Tickets.jsx:16-46 | the records are shown iff someone is signed in; total is the fetched count, active ≤ total, listed ≤ total, empty-state iff nothing is listed |
| `TicketList.ListRows` | frontend/src/pages/Tickets.jsx:39-170 | after a successful fetch the table's rows are a subsequence of the fetched tickets, and a ticket is a row iff it was fetched and its title or description contains the term, ignoring case |
| `TicketList.EmptyStateIff` | frontend/src/pages/Tickets.jsx:208 | "No Support Records Found" is shown iff no fetched ticket matches the term |
| `TicketList.CountersIgnoreSearch` | frontend/src/pages/Tickets.jsx:98-103 | total and active do not depend on the search term |

## Left out

- Session and authentication (login, logout, session initialisation, token storage): `frontend/src/context/AuthContext` is not part of this model. The signed-in user is a parameter.
- Owner checks, server-side enforcement, status-transition rules and conflict handling: no modelled page implements them.
- HTTP transport, bearer headers, the `ticketId` route parameter, toasts, console logging and `window.confirm`. The confirmation answer and each request's success are inputs.
- Asynchrony: each handler runs to completion with its response given. Interleaved or late responses are not modelled.
- Pending fetches: `DashboardScreen` and `ListScreen` describe the page after the fetch has completed. The spinner is only modelled for a fetch that never starts.
- `TicketDetail.CaseReference`: upper-cases ASCII letters only, because Unicode case mapping is not modelled.
- `TicketList.FilteredSelection`: the search lower-cases ASCII letters only; Unicode case mapping is not modelled. The same holds for `AdminDashboard.FilteredSelection`.
- A requester object without a `name` makes the dashboard search throw. The model treats the name as absent (no match) and does not model the crash.
- Handlers run with a signed-in user. A missing user makes `user.role` or `user.token` throw in the source; that crash is not modelled.
- Presentation: date formatting, the priority badge, breadcrumb labels, the "RESOLVED" marker on a replied ticket, and avatar initials.
- The other pages and components (header, bottom navigation, users, profile, login, new ticket, back button): besides markup and the same role checks they hold their own form handlers (ticket submission, login, logout); none of these is modelled.

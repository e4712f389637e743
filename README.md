# Trello client: board state, login form and sidebar, in Dafny

This project models the logic of a React kanban client ("Trello") and proves properties of it.
The client keeps one state value, `allboard = {boards, active}`, in a board context. The context's
operations fetch boards and lists, activate a board, create lists and cards, rename a list and
fetch cards. Each operation either updates that tree or classifies the server's reply into
`{success, error}`. The model also covers the login page's three-mode form (log in, send a
reset link, update the password) and the sidebar that appends boards and points `active` at one.

Modules, one per concern:

- `Js` (js.dfy): JavaScript primitives (`undefined`, `null`, booleans, integers, strings),
  truthiness, `||`, `includes`, the decimal text of a number, and the TypeError message for
  reading a property of a nullish value.
- `Boards` (boards.dfy): the state tree (`AllBoard`, `Board`, `BoardList`, `Card`) and
  `FindBoard`, the index that `boards.find(b => b.id === id)` stops at.
- `Http` (http.dfy): what a request comes back with. `Reply` is a network failure, an abort
  or a response (`ok`, HTTP status, parsed body or parse error). A parsed body is
  `{status, message, data}`.
- `BoardContext` (board_context.dfy): the pure state updaters and reply classifiers, with the
  properties in their contracts. Lemmas say how the updaters combine. The class `BoardProvider`
  holds the `allboard` cell. Its methods apply the updaters, or compute a result without a
  `modifies` clause, which proves that they leave the cell alone.
- `Login` (login.dfy): the form state, `HandleSubmit` and `Step` as pure functions, and trace
  invariants. The class `LoginPage` holds the component's fields, and its methods follow the
  source's setter-by-setter early-return code.
- `Sidebar` (sidebar.dfy): the class `SidebarPanel` (form, popover flag, shared provider) and the
  lemmas where the sidebar's index-valued `active` meets the context's id-valued `active`.

The network, storage and UI are parameters. Each operation receives the `Reply` its request
got. The provider's constructor receives the state restored from storage, if any.

Things the proofs show about the code as written:

- A truthy `active` survives a board refresh even if no returned board has that id. So `active`
  can point at no board.
- A lists fetch that fails outright and one that returns an empty array give the same state
  and the same `{success: true}`.
- `createList` and `createCard` never look at the HTTP status. A 4xx/5xx reply whose body says
  `status: 1` counts as created.
- `updateListTitle` sets `isInvalidId` whenever the error message contains "Invalid list ID".
  A server message can do that too, not only a non-numeric id.
- In the login form, asking for a reset link does not clear an earlier error. So "Please enter
  your email" can still show in the update-password step.
- The sidebar's `setActiveBoard(0)` is undone by the next board refresh, because index 0 is
  falsy. Any other index survives, kept in the field the context otherwise fills with board ids.

Some behaviours a reader might expect of a board client, and what the code does instead:

- Titles are not trimmed or checked for emptiness. The only check before a request is
  `updateListTitle`'s test that the list id is a number.
- No update is optimistic, and nothing is reverted.
- `fetchBoards` discards all loaded lists.
- A failed list fetch is reported as a success with no lists.
- A new list's position is the board's current list count, not the last position plus an
  increment.
- `isActive` flags are stored on every board next to the `active` pointer.
- Authentication failures are not told apart from other failures.

## Model

| member | source | states |
|---|---|---|
| `Js.Includes` | src/context/BoardContext.jsx:253 | `s.includes(sub)` holds exactly when `sub` occurs in `s` at some index |
| `Js.Decimal` | src/context/BoardContext.jsx:242 | the status in a template literal is its decimal text: a non-empty string of digits whose value (`DigitsValue`) is the status, with no leading zero except for 0 itself |
| `Boards.FindBoard` | src/context/BoardContext.jsx:146 | `find` gives the first board with the id, or nothing exactly when no board has it |
| `BoardContext.FetchBoardsNext` | src/context/BoardContext.jsx:45-71 | a failed, non-ok or unparsable reply changes nothing; a `data` array replaces the boards in order with `{id, name, bgcolor: "#5d5b5f", lists: []}`; `active` is the old truthy `active`, else the first board's truthy id, else null; any other body empties `boards` and keeps `active` |
| `BoardContext.StaleActiveSurvivesFetch` | src/context/BoardContext.jsx:60 | after a refresh, `active` can name a board that is not in `boards` |
| `BoardContext.FetchBoardsIdempotent` | src/context/BoardContext.jsx:52-67 | receiving the same boards reply twice gives the same state as receiving it once |
| `BoardContext.ListsFromServer` | src/context/BoardContext.jsx:102-107 | a `data` array gives one `{id, title, position, items: []}` per entry, in order; anything else gives no lists |
| `BoardContext.ListsFetchNext` | src/context/BoardContext.jsx:87-129 | only the boards with id `boardId` change, and only their `lists`; the count, order and `active` are kept; `status === 1` loads the reply's lists; any other error empties them; an abort or another status changes nothing |
| `BoardContext.ListsFetchResult` | src/context/BoardContext.jsx:95-129 | the result is a failure exactly when a parsed ok reply has `status !== 1`, with the server's message or "Unknown error" |
| `BoardContext.FailedListFetchChangesNothing` | src/context/BoardContext.jsx:113-115 | a reported failure leaves the state unchanged |
| `BoardContext.EmptyListsIndistinguishableFromError` | src/context/BoardContext.jsx:94-129 | an empty list reply and a network failure leave the same state and the same success result |
| `BoardContext.ListsFetchIdempotent` | src/context/BoardContext.jsx:96-127 | receiving the same lists reply twice gives the same state as receiving it once |
| `BoardContext.WithActiveBoard` | src/context/BoardContext.jsx:207-216 | `active` becomes the id; each board is flagged `isActive` exactly when its id equals it, so the flags agree with the pointer; nothing else, the count or the order changes; with unique ids at most one board is flagged |
| `BoardContext.ActivationCommutesWithListsFetch` | src/context/BoardContext.jsx:96-127 | activating a board and loading lists commute |
| `BoardContext.NextListPosition` | src/context/BoardContext.jsx:146 | the requested position is the list count of the first board with that id, or 0 when there is none |
| `BoardContext.CreatedEntry` | src/context/BoardContext.jsx:150-165 | a reply is created exactly when its body has `status === 1` and a non-nullish `data`, whatever the HTTP status; a thrown error gives its message, another status gives the server's message (maybe undefined), a nullish `data` gives the TypeError's message |
| `BoardContext.CreateIgnoresHttpStatus` | src/context/BoardContext.jsx:150-152 | a create reply is read the same for every HTTP status |
| `BoardContext.ConfirmedData` | src/context/BoardContext.jsx:267-277 | `data.data` is returned exactly when the response is ok and `status === 1`; otherwise the thrown message, the server's message, or the fallback with the status number |
| `BoardContext.TitleUpdate` | src/context/BoardContext.jsx:218-255 | a non-number id fails as "Invalid list ID format" with `isInvalidId`; success needs an ok reply, `status === 1` and the echoed id equal to the requested one; a readable mismatched echo fails as "Server returned mismatched list ID"; a thrown request, a non-ok reply or `status !== 1` fails with the message `ConfirmedData` gives (the thrown message, or `data.message || "HTTP error! status: " + status`); a confirmed reply with null or undefined `data` fails with the TypeError for reading `id`; `isInvalidId` is whether the message mentions an invalid list id |
| `BoardContext.ServerMessageCanFlagInvalidId` | src/context/BoardContext.jsx:241-253 | a numeric id can still come back flagged `isInvalidId`, when the server's message says so |
| `BoardContext.BoardProvider.constructor` | src/context/BoardContext.jsx:18-24 | the state is the restored one, or `{boards: [], active: null}` |
| `BoardContext.BoardProvider.FetchBoards` | src/context/BoardContext.jsx:36-72 | the new state is `FetchBoardsNext` of the old one |
| `BoardContext.BoardProvider.FetchListsForBoard` | src/context/BoardContext.jsx:76-131 | the new state is `ListsFetchNext` of the old one, and the result is `ListsFetchResult` |
| `BoardContext.BoardProvider.SetActiveBoard` | src/context/BoardContext.jsx:207-216 | the new state is `WithActiveBoard` of the old one |
| `BoardContext.BoardProvider.CreateList` | src/context/BoardContext.jsx:133-166 | sends the board id, the title and `NextListPosition`; a created list is `{id, title, items: []}`; the state is not modified |
| `BoardContext.BoardProvider.CreateCard` | src/context/BoardContext.jsx:168-205 | sends the list id, title and position as given; a created card is `{id, title, position}`; the state is not modified |
| `BoardContext.BoardProvider.UpdateListTitle` | src/context/BoardContext.jsx:218-255 | no request is sent exactly when the id is not a number; the result is `TitleUpdate`; the state is not modified |
| `BoardContext.BoardProvider.FetchCardsForList` | src/context/BoardContext.jsx:256-278 | success exactly on an ok reply with `status === 1`, returning its `data`; otherwise the `ConfirmedData` message; the state is not modified |
| `Login.PageTexts` | src/components/Login.jsx:63-69 | the heading and the submit button's text (lines 123-132) depend only on the mode: sign in shows "Login to Trello"/"Login", the reset-link step "Reset Password"/"Send Reset Link", the update step "Update Password" twice, each pair exactly when in that mode |
| `Login.HandleSubmit` | src/components/Login.jsx:14-58 | an empty email only sets "Please enter your email"; the link step only sets `resetStep`; the update step reports "Please fill in all fields" or "Passwords do not match" keeping the mode, and a success returns to log-in clearing email and both new passwords but not `error`; log-in needs a password and then clears `error` and navigates to "/trello"; the password is never touched and `resetStep ==> forgotPassword` is kept |
| `Login.Step` | src/components/Login.jsx:72-153 | every event keeps `resetStep ==> forgotPassword`; enabled events keep the reachable invariant; "Back to Login" lowers both flags; the mode changes on submit only from the link step to the update step or from the update step to log-in; edits keep the mode and the error |
| `Login.RunStaysConsistent` | src/components/Login.jsx:25-43 | after any sequence of events, `resetStep` implies `forgotPassword` |
| `Login.EnabledRunStaysReachable` | src/components/Login.jsx:75-153 | along events the page allows, the update step is only ever in forgot mode and with an email |
| `Login.UpdateStepHasEmail` | src/components/Login.jsx:79-81 | in a real session the update-password step always has a non-empty email |
| `Login.StaleErrorReachesUpdateStep` | src/components/Login.jsx:16-27 | an email error raised while asking for the link is still shown in the update step |
| `Login.LoginPage.constructor` | src/components/Login.jsx:5-11 | every field starts empty or false |
| `Login.LoginPage.HandleSubmitEvent` | src/components/Login.jsx:14-58 | the fields and the effect are `Step` of the old fields on submit |
| `Login.LoginPage.ForgotPasswordButton` | src/components/Login.jsx:137-142 | sets `forgotPassword` only |
| `Login.LoginPage.BackToLoginButton` | src/components/Login.jsx:144-152 | clears `forgotPassword` and `resetStep` only |
| `Login.LoginPage.ChangeEmail` | src/components/Login.jsx:79-81 | sets `email` only |
| `Login.LoginPage.ChangePassword` | src/components/Login.jsx:92-93 | sets `password` only |
| `Login.LoginPage.ChangeNewPassword` | src/components/Login.jsx:106-107 | sets `newPassword` only |
| `Login.LoginPage.ChangeConfirmPassword` | src/components/Login.jsx:116-117 | sets `confirmPassword` only |
| `Sidebar.WithBoardAdded` | src/components/Sidebar.jsx:21-24 | one more board; the earlier ones unchanged; the new last one has the form's name (an empty one too) and colour, no id and `lists: []`; `active` unchanged |
| `Sidebar.WithIndexActive` | src/components/Sidebar.jsx:16-20 | `active` becomes the index; the boards are unchanged |
| `Sidebar.IndexZeroLostOnRefresh` | src/components/Sidebar.jsx:16-20 | after `setActiveBoard(0)`, a refresh replaces `active` with the first board's id |
| `Sidebar.IndexKeptAsIdOnRefresh` | src/components/Sidebar.jsx:16-20 | after `setActiveBoard(i)` with `i > 0`, a refresh keeps `i` in the field the context fills with board ids |
| `Sidebar.IndexPointerStalesFlags` | src/components/Sidebar.jsx:16-20 | an index pointer leaves the context's `isActive` flags disagreeing with `active` |
| `Sidebar.SidebarPanel.constructor` | src/components/Sidebar.jsx:7-14 | the form starts as `blankBoard` (empty name, "#f60000") and the popover closed |
| `Sidebar.SidebarPanel.EditName` | src/components/Sidebar.jsx:58 | sets the form's name only |
| `Sidebar.SidebarPanel.EditColor` | src/components/Sidebar.jsx:60 | sets the form's colour only |
| `Sidebar.SidebarPanel.TogglePopover` | src/components/Sidebar.jsx:66 | flips the popover's visibility only |
| `Sidebar.SidebarPanel.AddBoard` | src/components/Sidebar.jsx:21-27 | the shared state is `WithBoardAdded` of the old state and form; the form is reset to `blankBoard`; the popover is toggled |
| `Sidebar.SidebarPanel.SetActiveBoard` | src/components/Sidebar.jsx:16-20 | the shared state is `WithIndexActive` of the old one |

## Left out

- Requests, headers, bearer tokens, `localStorage`/`sessionStorage` and JSON text are not modelled. Each operation receives its `Reply`. The saved state is a constructor argument, and the effect that writes the state back to storage is not modelled.
- `encodeURIComponent` is not modelled: the rename request carries the raw title. `console` logging is not modelled either.
- The fetch of boards on mount, the abort signal's plumbing and the order in which concurrent replies land are not modelled. Each reply is applied atomically to the state current at that moment, as a functional `setAllBoard` update is. Only the effect of an abort on the state is modelled.
- Numbers are integers. NaN, fractions and object-valued ids are not modelled, so `===` is plain equality.
- A reply body is always a JSON object, its `message` is absent or a string, and array entries are objects. A top-level `null` body and null entries, which would throw elsewhere, are not modelled.
- Entries keep only the keys the client reads (`id` and `name` for boards; `id`, `title` and `position` for lists and cards). `BoardContext.BoardProvider.FetchCardsForList` returns that projection of `data`, not every key the server sent (a card's description, for one).
- The TypeError message for reading `id` of `null`/`undefined` uses V8's wording.
- Sidebar: `blankBoard` also carries a stray `list: []` key, which is copied into every added board. The model does not carry it.
- Sidebar: `addBoard` pushes onto the array that the previous state value shares. The model assigns a new sequence, so it does not capture that aliasing.
- Sidebar: the collapse toggle is not modelled; it is presentation only.
- Login: `alert` and `navigate` are effects the step returns. The browser's own `type="email"` validation is not modelled.
- Not part of this model: Dashboard.jsx, Header.jsx, Main.jsx, Footer.jsx, CardAdd.jsx, App.jsx (markup), WorkspaceModal.jsx (its submit only logs and closes), Profile.jsx (a network call), AddList.jsx (an empty-string guard before a callback), ProtectedRoute.jsx and PublicRoute.jsx (routing on token presence), TrelloApp.jsx (fixture data).
- Drag-and-drop, card moves, comments, attachments and workspaces are not modelled: the code shown does not implement them.

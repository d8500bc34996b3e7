# Helix HR assistant: session store, view router and chat history

A Dafny model of the three pieces of the Helix HR assistant front end that
have behaviour beyond rendering literals:

- **Session store** (`AuthProvider`, `useAuth`): the provider holds `user` and
  `isLoading` and writes one browser storage slot, `helix_user`. On mount it
  hydrates `user` from the slot. `login(email, password)` builds a mock user
  from the e-mail alone: `hr@helix.com` gets the HR role, every other address
  the employee role. The password is never read. `login` writes the user to the
  slot and to memory. `logout` clears both. `useAuth` fails outside a provider.
  Modelled in `auth_context.dfy` as the class `AuthProvider` over a
  `LocalStorage` object. Its methods are proved against pure transitions on a
  `Session` value (`Mount`, `Hydrate`, `SignIn`, `SignOut`), and the lemmas
  about those transitions give the round trips and idempotence.
- **View router** (`AppContent`): a total function from `(isLoading, user)` to
  the spinner, the login form, the HR dashboard or the employee dashboard
  (`app.dfy`). Two client methods drive the session store through a first
  visit, a login, a page reload over the same storage, a logout and another
  reload, and state which view each step shows.
- **Chat history** of the employee dashboard: `handleSendMessage` appends a
  question unless the typed message is blank after `trim()`, and
  `handleRating` rates every entry with a given id (`employee_dashboard.dfy`).
  `trim()` is modelled with the characters ECMAScript strips: WhiteSpace and
  LineTerminator. The history updates are pure `seq` functions, and the
  component is a class `Dashboard` whose handlers are proved against them.

`wrappers.dfy` holds `Option` and `Result`. `types.dfy` holds `UserRole` and `User`.

Three behaviours of the code that are easy to assume otherwise:

- A stored value that is not valid JSON is not tolerated. `JSON.parse` is
  called without a `try`, so such a value would throw. The model's slot is an
  `Option<User>` and has no malformed state.
- A role other than `hr` is not a fault. `AppContent` sends every non-`hr`
  role to the employee dashboard. With `UserRole` an enumeration that branch
  can only be `Employee`. `Route`'s contract states the code's `!= Hr` test.
- The mount effect never calls `setUser(null)`. With an empty slot it leaves
  `user` as it was. That is `None` on a fresh mount: see
  `HydrateEndsLoading` and `FirstVisit`.

## Model

| member | source | states |
|---|---|---|
| `AuthContext.MockUser` | src/context/AuthContext.tsx:28-35 | the user's role is `Hr` exactly when the e-mail is `hr@helix.com`; then the id is `hr-1`, the name `HR Manager` and the department `Human Resources`; otherwise the role is `Employee` with `emp-1`, `John Doe` and `Engineering`; the e-mail is copied unchanged and the timestamp is the supplied clock value |
| `AuthContext.Mount` | src/context/AuthContext.tsx:14-15 | the state of a freshly mounted provider: no user, loading, over the stored slot; its properties are stated by `AuthProvider.constructor`, `HydrateEndsLoading`, `ReloadAfterSignIn` and `ReloadAfterSignOut` |
| `AuthContext.Hydrate` | src/context/AuthContext.tsx:17-23 | the mount effect as a transition; its properties are stated by `HydrateEndsLoading` (loading ends, slot only read, filled slot becomes the user) and by `ReloadAfterSignIn` and `ReloadAfterSignOut` |
| `AuthContext.SignIn` | src/context/AuthContext.tsx:25-40 | login as a transition; its properties are stated by `SignInStoresUser`, `SignInIgnoresPasswordAndPriorState`, `ReloadAfterSignIn` and `RouteAfterSignIn` |
| `AuthContext.SignOut` | src/context/AuthContext.tsx:42-45 | logout as a transition; its properties are stated by `SignOutIdempotent`, `SignOutWhenAnonymous`, `ReloadAfterSignOut` and `RouteAfterSignOut` |
| `AuthContext.LocalStorage.constructor` | src/context/AuthContext.tsx:18 | the `helix_user` slot that the mount effect reads and `login` and `logout` write starts out holding the given value |
| `AuthContext.HydrateEndsLoading` | src/context/AuthContext.tsx:17-23 | after the mount effect loading is over and the slot is untouched; a filled slot becomes the user, an empty one leaves the user as it was; a fresh mount ends holding exactly what the slot holds |
| `AuthContext.SignInStoresUser` | src/context/AuthContext.tsx:25-40 | after login memory and slot hold the same user, the mock user for that e-mail, and loading is over |
| `AuthContext.SignInIgnoresPasswordAndPriorState` | src/context/AuthContext.tsx:25-35 | the outcome of login depends on neither the password nor on the state it started from |
| `AuthContext.ReloadAfterSignIn` | src/context/AuthContext.tsx:17-38 | a fresh provider mounted over the slot that login wrote ends in exactly the state login left: the same user, not loading |
| `AuthContext.SignOutIdempotent` | src/context/AuthContext.tsx:42-45 | logout empties both the user and the slot and keeps `isLoading`; logging out twice is the same as once |
| `AuthContext.SignOutWhenAnonymous` | src/context/AuthContext.tsx:42-45 | with no user and nothing stored, logout changes nothing |
| `AuthContext.ReloadAfterSignOut` | src/context/AuthContext.tsx:17-45 | a fresh provider mounted after logout ends with no user and not loading |
| `AuthContext.AuthProvider.constructor` | src/context/AuthContext.tsx:14-15 | a new provider starts with no user and loading, over the given storage |
| `AuthContext.AuthProvider.Initialize` | src/context/AuthContext.tsx:17-23 | the mount effect performs `Hydrate` on the provider's fields: user from a filled slot, loading off |
| `AuthContext.AuthProvider.Login` | src/context/AuthContext.tsx:25-40 | login performs `SignIn` in place: the slot and the user both hold the mock user for the e-mail and loading ends off |
| `AuthContext.AuthProvider.Logout` | src/context/AuthContext.tsx:42-45 | logout performs `SignOut` in place: slot and user emptied, loading flag unchanged |
| `AuthContext.UseAuth` | src/context/AuthContext.tsx:54-60 | succeeds with the provider exactly when there is one, otherwise fails with the "used within an AuthProvider" message |
| `App.Route` | src/App.tsx:9-21 | each view is chosen exactly when its condition holds: spinner iff loading; login form iff not loading and no user; HR dashboard iff not loading and the role is `Hr`; employee dashboard iff not loading and the role is anything else; so exactly one view for every state |
| `App.AppContent` | src/App.tsx:6-22 | fails with the `useAuth` error exactly when there is no provider; otherwise it is the route of the provider's current loading flag and user |
| `App.RouteAfterSignIn` | src/App.tsx:21 | after login the view is the HR dashboard for `hr@helix.com` and the employee dashboard for any other address |
| `App.RouteAfterSignOut` | src/App.tsx:17-19 | after logout the view is the login form, or the spinner if a load was still showing |
| `App.FirstVisit` | src/context/AuthContext.tsx:14-23 | with nothing stored a new provider shows the spinner and, once mounted, the login form |
| `App.LoginReloadLogout` | src/context/AuthContext.tsx:17-45 | login then reload over the same storage restores exactly the logged-in user and the same dashboard; logout, and a reload after it, show the login form |
| `EmployeeDashboard.IsTrimmable` | src/components/employee/EmployeeDashboard.tsx:36 | the characters `trim()` strips: ECMAScript WhiteSpace and LineTerminator; used by the contracts of `TrimStart`, `TrimEnd` and `Trim` |
| `EmployeeDashboard.IsBlank` | src/components/employee/EmployeeDashboard.tsx:36 | a string of trimmable characters only; `TrimEmptyIffBlank` proves it is exactly the case where `!message.trim()` holds |
| `EmployeeDashboard.TrimStart` | src/components/employee/EmployeeDashboard.tsx:36 | the result is a suffix of the input, everything removed is trimmable, and it does not start with a trimmable character |
| `EmployeeDashboard.TrimEnd` | src/components/employee/EmployeeDashboard.tsx:36 | the result is a prefix of the input, everything removed is trimmable, and it does not end with a trimmable character |
| `EmployeeDashboard.Trim` | src/components/employee/EmployeeDashboard.tsx:36 | `trim()` returns a contiguous piece of its input; everything cut before and after it is trimmable, and no trimmable character is left at either end of it |
| `EmployeeDashboard.TrimStartEmptyIffBlank` | src/components/employee/EmployeeDashboard.tsx:36 | trimming the start leaves nothing exactly when the string is all trimmable characters |
| `EmployeeDashboard.TrimEndKeepsNonBlankHead` | src/components/employee/EmployeeDashboard.tsx:36 | trimming the end never removes a string whose first character is kept |
| `EmployeeDashboard.TrimEmptyIffBlank` | src/components/employee/EmployeeDashboard.tsx:36 | `!message.trim()` holds exactly when the message consists of whitespace only, both directions |
| `EmployeeDashboard.Rated` | src/components/employee/EmployeeDashboard.tsx:48-52 | the rated history has the same length; each entry whose id matches gets the new rating with everything else kept; every other entry is unchanged |
| `EmployeeDashboard.RatedKeepsTranscript` | src/components/employee/EmployeeDashboard.tsx:49-51 | rating keeps every entry's id, question and answer at its position |
| `EmployeeDashboard.RatedAbsentId` | src/components/employee/EmployeeDashboard.tsx:49-51 | rating an id that no entry has leaves the history unchanged |
| `EmployeeDashboard.RatedLastWins` | src/components/employee/EmployeeDashboard.tsx:50 | rating an id twice is the same as applying only the second rating |
| `EmployeeDashboard.RatedIdempotent` | src/components/employee/EmployeeDashboard.tsx:50 | applying the same rating twice is the same as once |
| `EmployeeDashboard.RatedDistinctIdsCommute` | src/components/employee/EmployeeDashboard.tsx:49-51 | ratings of two different ids can be applied in either order |
| `EmployeeDashboard.Send` | src/components/employee/EmployeeDashboard.tsx:35-46 | `handleSendMessage` as a transition on the component state; its properties are stated by `SendBlankIsNoOp`, `SendAppendsOne` and `SendKeepsPrefix` |
| `EmployeeDashboard.Rate` | src/components/employee/EmployeeDashboard.tsx:48-52 | `handleRating` as a transition: only the history changes, to `Rated` of it; its properties are stated by the contract of `Rated` and by `RatedLastWins`, `RatedIdempotent`, `RatedAbsentId` and `RatedDistinctIdsCommute` |
| `EmployeeDashboard.SendBlankIsNoOp` | src/components/employee/EmployeeDashboard.tsx:36 | sending a whitespace-only message leaves tab, message and history all unchanged |
| `EmployeeDashboard.SendAppendsOne` | src/components/employee/EmployeeDashboard.tsx:38-45 | sending a non-blank message keeps the earlier entries in order and adds one entry at the end: the supplied id, the untrimmed message as the question, the demo answer and no rating; the message box is emptied |
| `EmployeeDashboard.SendKeepsPrefix` | src/components/employee/EmployeeDashboard.tsx:35-46 | sending never removes or reorders entries: the history grows by at most one and the old history is its prefix |
| `EmployeeDashboard.Dashboard.constructor` | src/components/employee/EmployeeDashboard.tsx:19-33 | the component starts on the chat tab with an empty message and a history of the single entry with id `1` rated up |
| `EmployeeDashboard.Dashboard.SetActiveTab` | src/components/employee/EmployeeDashboard.tsx:115-126 | the tab buttons change the active tab and nothing else |
| `EmployeeDashboard.Dashboard.SetMessage` | src/components/employee/EmployeeDashboard.tsx:194 | typing replaces the message and changes nothing else |
| `EmployeeDashboard.Dashboard.HandleSendMessage` | src/components/employee/EmployeeDashboard.tsx:35-46 | the handler performs `Send` in place: a blank message leaves the whole state as it was; otherwise the new entry is appended and the message cleared |
| `EmployeeDashboard.Dashboard.HandleRating` | src/components/employee/EmployeeDashboard.tsx:48-52 | the handler replaces the history by its rated version: same length, matching ids rated, other entries unchanged |

## Left out

- JSX rendering, styling, icons, the quick-topic labels and the resume upload input: they only display literals. The quick-topic buttons set the message, which `SetMessage` covers.
- The `Login` component that `App.tsx` imports is not part of this model.
- `HRDashboard.tsx` is not part of this model: it is static mock data and floating-point display values.
- JSON serialisation of the stored user: the slot holds an `Option<User>`, so a stored user is assumed to read back field for field.
- The clock: `new Date().toISOString()` and `Date.now().toString()` are parameters (`now`, `id`). Ids passed to `HandleSendMessage` are not assumed to be unique.
- React scheduling: state updates take effect at once, in program order. `login` is `async` but awaits nothing, so it is a sequential method. Batching means the brief `isLoading = true` inside `login` is never observed, and the model does not claim it is.
- The `App` component, which only places `AppContent` inside `AuthProvider`. Composition is modelled by `AppContent` taking the provider context as an argument.
- The dashboards' calls to `logout` go through the same `AuthProvider.Logout`.

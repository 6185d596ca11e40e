# davinci-cors client: session, role and form rules in Dafny

This project models the small amount of logic in the browser client of the
davinci-cors class-management application and proves properties of it:

- **The session service** (`Users`, from `react-frontend/src/service/UserService.ts`).
  The fixed role list `[owner, member, admin]` and the rules over it: the roles
  "below" a role, the German role labels, the first-match member lookup and the
  admin test for the logged-in user. The session state is a class `UserService`
  with the refresh token, the current user id, the registered change handlers,
  the browser's local storage (a map), the access token of the shared HTTP client,
  and two ghost fields that exist only for the contracts: the scheduled token
  renewals and the handler calls made so far. Login,
  account creation, handler registration, logout, token intake and renewal
  scheduling are methods on it. Backend responses are method parameters.
- **The event-creation form** (`CreateEventPopup`). The initial values, the
  validation rules as a predicate, the conversion of a submitted form into an
  event (seconds to milliseconds, an end of 0 or none becomes no end) and the
  event-type labels.
- **The member-edit form** (`EditUserPopUp`). The initial values, the validation
  rules, the role menu built from the roles below the member's role, and the
  member update it submits.
- **Shared records** (`Data`, `Wrappers`). Roles, users, class members, classes,
  the role strings, and an `Option` type for values that may be `undefined`.

Some details of the code are modelled as written:

- The role list puts `admin` after `member`. So the edit menu offers an owner
  `[member, admin]`, a member `[admin]` and an admin nothing (`RolesBelowCases`).
- `if (header['refresh-token'])` and `if (this.refreshToken)` follow JavaScript
  truthiness: an empty string counts as absent (`Truthy`).
- `login` stores the refresh-token header with `localStorage.setItem`. A missing
  header is stored as the string `"undefined"`, which a restarted service then
  takes as its refresh token (`LoginWithoutRefreshHeaderStoresUndefined`).
- `createAccount` does not write local storage.
- The event form opens with `endDate` 0. That value is present, so the rule "end
  strictly after start" rejects the form (`InitialValuesNeedDates`) until an end
  date after the start is picked, or a start before 1970, which leaves the event
  without an end (`ZeroEndNeedsNegativeStart`).
- `isAdmin` checks only the first member entry with the current user's id.
- `logout` removes only the `refresh-token` key. The in-memory fields stay as
  they were, because the redirect reloads the page.
- `login` changes the user id, the tokens, the renewal and the stored key before
  it fetches the current user. When that fetch fails, those changes stay and no
  handler is called.

## Model

| member | source | states |
|---|---|---|
| `Users.IndexOf` | react-frontend/src/service/UserService.ts:182 | -1 exactly when the element is absent; otherwise a position holding it with no earlier occurrence |
| `Users.RolesBelow` | react-frontend/src/service/UserService.ts:181-183 | the result is the suffix of the role list that starts right after the given role; it never contains that role |
| `Users.RolesBelowCases` | react-frontend/src/service/UserService.ts:17 | with the list as written: owner gives [member, admin], member gives [admin], admin gives [] |
| `Users.MemberRoleLabel` | react-frontend/src/service/UserService.ts:170-179 | every role has a non-empty label |
| `Users.MemberRoleLabelInjective` | react-frontend/src/service/UserService.ts:170-179 | the three roles have three distinct labels |
| `Users.WithUser` | react-frontend/src/service/UserService.ts:107 | the filter keeps only list members with the id, and is empty exactly when no member has it |
| `Users.WithUserHeadIsFirst` | react-frontend/src/service/UserService.ts:107 | the head of the filtered list is the member at the first position with the id |
| `Users.GetMember` | react-frontend/src/service/UserService.ts:106-108 | nothing exactly when no member has the id; otherwise the member at the first position with the id |
| `Users.Notify` | react-frontend/src/service/UserService.ts:185-187 | one call per registered handler |
| `Users.NotifyEachOnceInOrder` | react-frontend/src/service/UserService.ts:185-187 | the i-th call goes to the i-th registered handler, with the given user |
| `Users.NotifySnoc` | react-frontend/src/service/UserService.ts:186 | one more handler adds exactly its own call at the end |
| `Users.LogoutForgetsRefreshToken` | react-frontend/src/service/UserService.ts:65-67 | after logout's removal, a new service finds no refresh token |
| `Users.LoginPersistsRefreshToken` | react-frontend/src/service/UserService.ts:80 | after login stores a non-empty refresh-token header, a new service picks up that token |
| `Users.LoginWithoutRefreshHeaderStoresUndefined` | react-frontend/src/service/UserService.ts:80 | after a login whose response has no refresh-token header, a new service takes the string `"undefined"` as its refresh token |
| `Users.UserService.constructor` | react-frontend/src/service/UserService.ts:30-53 | the stored refresh token is taken when present and non-empty; no user, handlers, renewals or calls yet |
| `Users.UserService.SetToken` | react-frontend/src/service/UserService.ts:205-209 | the access token always becomes the header's; the refresh token changes only when the header carries a non-empty one |
| `Users.UserService.UpdateToken` | react-frontend/src/service/UserService.ts:189-203 | one renewal at the expiry is scheduled when a refresh token is held, none otherwise |
| `Users.UserService.TriggerOnAuthStateChange` | react-frontend/src/service/UserService.ts:185-187 | the loop appends exactly the calls of `Notify`: every handler once, in order |
| `Users.UserService.OnUserChange` | react-frontend/src/service/UserService.ts:110-112 | the handler is appended after those already registered |
| `Users.UserService.Login` | react-frontend/src/service/UserService.ts:74-82 | current user id is the response's; tokens taken; renewal scheduled iff a refresh token is held; storage key set to the header; when the user fetch succeeds, every handler is called once in order with the fetched user and the login succeeds, otherwise no handler is called and it fails |
| `Users.UserService.CreateAccount` | react-frontend/src/service/UserService.ts:84-91 | current user id is the new user's; tokens taken; renewal as in login; storage unchanged; every handler called once in order with the new user |
| `Users.UserService.Logout` | react-frontend/src/service/UserService.ts:65-67 | only the `refresh-token` storage key is removed |
| `Users.UserService.IsAdmin` | react-frontend/src/service/UserService.ts:93-96 | true exactly when a user is logged in and the first member entry with that id has role owner or admin |
| `Data.RoleKey` | react-frontend/src/service/UserService.ts:17 | every role has a non-empty string |
| `Data.ParseRole` | react-frontend/src/site/mainsite/currentClass/adminPanel/edituser/EditUserPopUp.tsx:26 | a string read as a role is that role's own string |
| `Data.ParseRoleKey` | react-frontend/src/site/mainsite/currentClass/adminPanel/edituser/EditUserPopUp.tsx:26 | every role's string reads back as that role |
| `Data.RoleKeyInjective` | react-frontend/src/site/mainsite/currentClass/adminPanel/edituser/EditUserPopUp.tsx:57 | distinct roles have distinct strings |
| `CreateEventPopup.OnSubmit` | react-frontend/src/site/mainsite/currentClass/calendar/CreateEventPopup.tsx:38-46 | the event goes to the given class; name, description and type are copied; times are whole seconds in milliseconds; an end exists exactly when the end date is present and non-zero |
| `CreateEventPopup.SubmitRoundTrip` | react-frontend/src/site/mainsite/currentClass/calendar/CreateEventPopup.tsx:41-42 | reading the submitted event back gives the form's own seconds; only an end date of 0 turns into none |
| `CreateEventPopup.GetFormatted` | react-frontend/src/site/mainsite/currentClass/calendar/CreateEventPopup.tsx:132-139 | a label exists exactly for the four event types, and it is non-empty |
| `CreateEventPopup.GetFormattedInjective` | react-frontend/src/site/mainsite/currentClass/calendar/CreateEventPopup.tsx:134-139 | the four types have four distinct labels |
| `CreateEventPopup.InitialValuesNeedDates` | react-frontend/src/site/mainsite/currentClass/calendar/CreateEventPopup.tsx:48-55 | the initial form fails validation whatever name is typed; its type is `other`, labelled `Anderes` |
| `CreateEventPopup.ValidatedEventIsWellFormed` | react-frontend/src/site/mainsite/currentClass/calendar/CreateEventPopup.tsx:19-33 | a validated form yields an event named with 1 to 50 characters, ending (if at all) strictly after it starts, with a labelled type |
| `CreateEventPopup.ZeroEndNeedsNegativeStart` | react-frontend/src/site/mainsite/currentClass/calendar/CreateEventPopup.tsx:25-27 | an end date of 0 passes validation only when the start is before 1970 |
| `EditUserPopUp.InitialValues` | react-frontend/src/site/mainsite/currentClass/adminPanel/edituser/EditUserPopUp.tsx:30-34 | the form opens with the member's display name and the string of the member's role |
| `EditUserPopUp.InitialValuesValidate` | react-frontend/src/site/mainsite/currentClass/adminPanel/edituser/EditUserPopUp.tsx:10-16 | the opening form passes validation exactly when the member's display name has 1 to 50 characters |
| `EditUserPopUp.RoleOptions` | react-frontend/src/site/mainsite/currentClass/adminPanel/edituser/EditUserPopUp.tsx:55-60 | one menu entry per role below the member's, in order; each selects that role and shows its label |
| `EditUserPopUp.RoleOptionsExcludeOwnRole` | react-frontend/src/site/mainsite/currentClass/adminPanel/edituser/EditUserPopUp.tsx:56 | no menu entry selects the member's own role |
| `EditUserPopUp.HandleSubmit` | react-frontend/src/site/mainsite/currentClass/adminPanel/edituser/EditUserPopUp.tsx:22-28 | the update goes to the given class, keeps the member's user id and carries the form's display name and role |
| `EditUserPopUp.SubmitInitialValuesKeepsMember` | react-frontend/src/site/mainsite/currentClass/adminPanel/edituser/EditUserPopUp.tsx:22-34 | submitting the opening form stores the member unchanged |
| `EditUserPopUp.SubmitSelectedRole` | react-frontend/src/site/mainsite/currentClass/adminPanel/edituser/EditUserPopUp.tsx:52-58 | after choosing an entry, the role string is one `HandleSubmit` accepts, and the member gets a role below the current one, never the same |

## Left out

- The HTTP calls: the request modules behind `getClass`, `getMembers`, `updateClassMember`, `createEvent`, `getCurrentUser` and the other one-line wrappers of `UserService` are not part of this model. Their responses are method parameters and their requests are returned values (`CreateEvent`, `UpdateMember`).
- A failed login or account-creation request changes nothing, so it has no method here.
- The email and password of `login` and the `PostUser` of `createAccount` only go into the HTTP request, so they are not parameters.
- The constructor's asynchronous token exchange and user fetch (lines 41-51 of `UserService.ts`) are not modelled. Once the requests resolve, they take the returned tokens, set the current user id and call every handler with the fetched user. They schedule no renewal and write no storage. They run after construction, so the constructor's contract covers only its synchronous part.
- The timer in `updateToken` is not modelled: `setTimeout`, `Date.now`, the renewal request and the self-rescheduling chain. The model records only that a renewal is scheduled at the expiry time.
- The redirect and the page reload in `logout`, and the `console.log` call, are browser side effects.
- Change handlers are opaque identifiers. The model records each call. A handler is assumed not to call back into the service and not to throw. A throwing handler would stop the `forEach` loop, skip the handlers after it and make `login`/`createAccount` reject; `Users.UserService.TriggerOnAuthStateChange`, `Login` and `CreateAccount` do not model that.
- The access token lives in a shared HTTP-client singleton. Here it is a field of the service.
- `Users.UserService.constructor`: `localStorage.getItem` is modelled, but the refresh request it starts is not (see above).
- `EditUserPopUp.HandleSubmit`: requires the form's role string to be a role. This stands for the unchecked cast `role as MemberRole`. `InitialValues` and `SubmitSelectedRole` show that every form the popup can hold meets it.
- A member record may have more fields than user id, display name and role. The record type `data/user/Member.ts` is not part of this model. `HandleSubmit` keeps every field it does not set.
- Validation is modelled as the rules it states, not as the form library's behaviour. Coercion, error messages and validate-on-blur timing are left out. Lengths count characters, not UTF-16 code units.
- `new Date(x * 1000).getTime()` is taken as `x * 1000`. The model leaves out JavaScript number precision beyond 2^53 and dates outside the range `Date` accepts.
- The `.then(onClose)` after the member update, and all rendering, are UI concerns.
- The owner lookup in `ClassInfo.tsx` is not modelled. It is rendering, and it is the same first-match pattern as `GetMember`.
- `CreateEventPopup.GetFormatted`: `types` is modelled as a map of its four own keys. Keys that a plain JavaScript object inherits from `Object.prototype` (`toString`, `__proto__` and the like) are left out: `types[key]` answers them with a non-`undefined` value, but the model gives `None`. The form only ever holds `other` or one of the four menu keys.

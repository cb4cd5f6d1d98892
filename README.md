# Session and form logic of a React sign-in client, in Dafny

This project models the stateful core of a small single-page client that
registers users, signs them in, keeps the session across reloads, guards
protected views and lets the user edit a profile. The client talks to a
remote HTTP API. Here every reply of that API is a parameter (`Outcome`,
`FetchOutcome`, `UploadOutcome`, `UpdateOutcome`), and every request sent
is appended to a log (`requests`, `calls`). That makes "no request was
sent" something a contract can state.

Modules, one per source file:

- `Common` (common.dfy): `Option`, form `Value`s, JavaScript's `a || b` on
  strings (`Or`) and `String(v)` (`AsString`).
- `Session` (user_context.dfy): the user context provider. Class
  `SessionStore` has the fields `user`, `sessionUser` (the `'user'`
  session-storage slot), `token` (the `'token'` local-storage slot), `path`,
  `seenAuth` (the `user.auth` value the redirect effect last ran for) and
  `requests`. Each method is proved against a pure transition on the
  `Store` value. Every transition keeps the invariant `Consistent`: the
  snapshot is the in-memory user, or there is no snapshot and the user is
  anonymous. Also, once the effect has run for an anonymous user, the path
  is `/login` or `/register`. The stronger invariant `Sound` adds that a
  snapshot is always of an authenticated user; every transition keeps it,
  and under it a user who is not signed in is anonymous.
- `Guard` (protected_route.dfy): the three-way route decision.
- `Forms` (use_form.dfy): the controlled-form hook, class `FormState`.
- `Authentication` (use_authentication.dfy): the authentication hook,
  class `AuthHook`, which drives a `SessionStore`.
- `TextForm` (text_form.dfy): the strong-password regular expression, given
  as character classes plus the lookahead and run constructs it uses. Also
  the registration checks (`Gate`) and the submit handler (`Form.OnSubmit`).
- `Dashboard` (dashboard.dfy): the profile values, the fetch merge, field
  edits, the image-type check, the email regular expression (as character
  classes) and the handlers of class `ProfilePage`.

Three behaviours of the code a reader might not expect:

- The record `logout` installs has no `email` key. So `User.email` is an
  `Option`, and after logout it is `None`, not the empty string.
- `authenticate` does not clear `error` on success. The form's submit
  handler does that, with `setError(null)`.
- The redirect effect runs only when `user.auth` changes, not on every
  session change.

## Model

| member | source | states |
|---|---|---|
| `Session.Hydrate` | src/contexts/UserContext.jsx:15-19 | after a page load the user is the stored snapshot if there is one, else the anonymous record with empty fields; the store is consistent and has sent nothing |
| `Session.SessionStore.constructor` | src/contexts/UserContext.jsx:15-19 | the constructed store is the hydrated state and satisfies the invariant |
| `Session.WithIdentity` | src/contexts/UserContext.jsx:30-40 | the new user is authenticated and carries exactly the given id, name, email and role; the snapshot is that same record; nothing else changes; the invariant is kept |
| `Session.SessionStore.SetUserState` | src/contexts/UserContext.jsx:30-40 | the store's new state is `WithIdentity` of the old one |
| `Session.Settled` | src/contexts/UserContext.jsx:42-89 | the request is logged; on success the token is stored and the returned identity is installed, authenticated, in memory and in session storage; on failure user, snapshot and token are unchanged; path and effect state never change; the invariant is kept |
| `Session.RegisterReply` | src/contexts/UserContext.jsx:55-65 | `register`'s result succeeds exactly on a successful reply, with 'Registration successful'; a failure carries the server's non-empty message, else 'Registration failed' |
| `Session.LoginReply` | src/contexts/UserContext.jsx:84-87 | `loginWithCredentials`'s result succeeds exactly on a successful reply, with 'Login successful'; a failure carries the server's non-empty message, else 'Login failed' |
| `Session.Reply` | src/contexts/UserContext.jsx:55-65 | `success` holds exactly for a successful reply; success carries the fixed message; failure carries the server's non-empty message, else the fallback |
| `Session.SessionStore.Register` | src/contexts/UserContext.jsx:42-67 | the new state is `Settled` with a registration request; the result is the reply with 'Registration successful' / 'Registration failed' |
| `Session.SessionStore.Login` | src/contexts/UserContext.jsx:69-71 | installs the identity like `setUserState`; sends no request and leaves the token alone |
| `Session.SessionStore.LoginWithCredentials` | src/contexts/UserContext.jsx:73-89 | the new state is `Settled` with a login request; the result is the reply with 'Login successful' / 'Login failed' |
| `Session.LoggedOut` | src/contexts/UserContext.jsx:91-96 | unauthenticated with empty id, name and role and no email key; both storage slots removed; path `/login`; the result is consistent |
| `Session.SessionStore.Logout` | src/contexts/UserContext.jsx:91-96 | the new state is `LoggedOut` of the old one |
| `Session.LogoutIdempotent` | src/contexts/UserContext.jsx:91-96 | logging out twice gives the same state as once |
| `Session.Redirected` | src/contexts/UserContext.jsx:22-26 | an authenticated user keeps the path; an anonymous user off `/login` and `/register` is sent to `/login`; the path is unchanged exactly when authenticated or already on one of those two |
| `Session.Effects` | src/contexts/UserContext.jsx:21-28 | when `user.auth` is the value the effect last ran for, nothing changes; otherwise the path becomes `Redirected`'s and the effect records the new `auth`; nothing else ever changes; from a consistent state, an anonymous user ends on a public path |
| `Session.SessionStore.RunEffects` | src/contexts/UserContext.jsx:21-28 | the new state is `Effects` of the old one; an anonymous user is then on `/login` or `/register` |
| `Session.EffectsIdempotent` | src/contexts/UserContext.jsx:21-28 | running the effect again with nothing changed does nothing |
| `Session.ReloadRestoresSession` | src/contexts/UserContext.jsx:15-40 | from any consistent state, a reload hydrates an authenticated user unchanged and an anonymous user as anonymous |
| `Session.RunKeepsConsistent` | src/contexts/UserContext.jsx:21-96 | every sequence of `setUserState`, registration or login attempts, `logout` and effect runs keeps the store consistent; only attempts send requests, one each; after the redirect effect an anonymous user is on `/login` or `/register` |
| `Session.SoundSignedOutIsAnonymous` | src/contexts/UserContext.jsx:15-19 | in a store whose snapshot is authenticated or absent, a user who is not signed in has an empty id, name, role and email, and there is no snapshot |
| `Session.HydrateSound` | src/contexts/UserContext.jsx:15-19 | a page load gives a sound store exactly when there is no snapshot or the snapshot is authenticated |
| `Session.RunKeepsSound` | src/contexts/UserContext.jsx:30-96 | every sequence of `setUserState`, attempts, `logout` and effect runs keeps a sound store sound: the snapshot is only ever written authenticated and removed on logout |
| `Session.FailureChangesOnlyTheLog` | src/contexts/UserContext.jsx:56-66 | a failed attempt changes only the request log; its message never depends on the client-side `error.message`, is never empty, and `success` is false |
| `Session.SuccessfulLoginFromAnonymous` | src/contexts/UserContext.jsx:73-84 | from an anonymous state, a successful login authenticates with the returned email, persists snapshot and token, and the redirect effect leaves the path alone |
| `Guard.Decide` | src/components/ProtectedRoute.jsx:9-17 | `/login` exactly when unauthenticated; `/unauthorized` exactly when authenticated with a role outside `allowedRoles`; render exactly when authenticated with an allowed role |
| `Guard.DecideDependsOnRoleSet` | src/components/ProtectedRoute.jsx:13 | order and repetition in `allowedRoles` do not affect the decision |
| `Guard.WideningRolesOnlyGrantsAccess` | src/components/ProtectedRoute.jsx:9-17 | allowing more roles keeps a rendered view rendered and never changes whether the user is sent to `/login` |
| `Guard.LoggedOutIsSentToLogin` | src/components/ProtectedRoute.jsx:9-11 | after logout every protected view redirects to `/login`, whatever its roles |
| `Guard.SignedInRendersPermittedViews` | src/components/ProtectedRoute.jsx:13-17 | after a successful sign-in the guard renders exactly when the returned role is allowed, else sends to `/unauthorized` |
| `Forms.NewValue` | src/hook/useForm.js:11 | a checkbox stores its `checked` flag, every other input its text value |
| `Forms.Changed` | src/hook/useForm.js:9-12 | key `name` is present and holds the new value; every other key keeps its value; no other key appears |
| `Forms.ChangeIdempotent` | src/hook/useForm.js:9-12 | applying the same change twice equals applying it once |
| `Forms.ChangesCommute` | src/hook/useForm.js:9-12 | changes to two different inputs commute |
| `Forms.LastWriteWins` | src/hook/useForm.js:9-12 | after any sequence of changes each key holds what the last change naming it stored; a key no change names keeps its initial value or stays absent |
| `Forms.LastForNoneIffUnnamed` | src/hook/useForm.js:9-12 | no change stored a value for a key exactly when no change names that key |
| `Forms.FormState.constructor` | src/hook/useForm.js:4 | the values start as the initial values |
| `Forms.FormState.HandleChange` | src/hook/useForm.js:6-13 | the values become `Changed` of the old values |
| `Forms.FormState.ResetForm` | src/hook/useForm.js:15-17 | the values become exactly the initial values, whatever edits came before |
| `Authentication.Dispatch` | src/hook/useAuthentication.js:12-15 | form type 'login' sends a login with the credentials' email and password; any other form type sends a registration with name, email and password |
| `Authentication.StoreReply` | src/hook/useAuthentication.js:12-15 | the store's result succeeds exactly when the reply does, and always has a non-empty message |
| `Authentication.Completed` | src/hook/useAuthentication.js:20-30 | a successful result is returned unchanged; a failed one is thrown with the result's message |
| `Authentication.AuthHook.constructor` | src/hook/useAuthentication.js:4-6 | `loading` starts false and `error` null |
| `Authentication.AuthHook.Begin` | src/hook/useAuthentication.js:10 | `loading` becomes true and `error` is kept |
| `Authentication.AuthHook.Settle` | src/hook/useAuthentication.js:11-31 | may only run while `loading` is true; the store settles the dispatched request; `loading` ends false; success is returned with `error` untouched; failure is thrown and `error` becomes `{message}` |
| `Authentication.AuthHook.Authenticate` | src/hook/useAuthentication.js:9-32 | runs `Begin` then `Settle`, so the request is sent only while `loading` is true; `loading` is false afterwards on both paths; the store settles the dispatched request; success is returned with `error` untouched; failure is thrown and `error` becomes `{message}` |
| `Authentication.AuthHook.SetError` | src/hook/useAuthentication.js:38 | sets `error` and nothing else |
| `Authentication.FailureIsThrownWithServerMessage` | src/hook/useAuthentication.js:22-30 | a failed attempt is thrown with the server's non-empty message, else with 'Login failed' or 'Registration failed' by form type |
| `TextForm.IsPasswordStrong` | src/components/TextForm/index.jsx:22-25 | a strong password has at least 8 characters, all in `[A-Za-z0-9!@#$%^&*]`, and contains a lower-case letter, an upper-case letter, a digit and one of `!@#$%^&*` (the converse is `PasswordStrongIff`) |
| `TextForm.LookaheadContains` | src/components/TextForm/index.jsx:23 | a matching `(?=.*[k])` has found a character of class `k` |
| `TextForm.RunIff` | src/components/TextForm/index.jsx:23 | `[k]*$` matches exactly when every character is in class `k` |
| `TextForm.LookaheadIff` | src/components/TextForm/index.jsx:23 | on text without line terminators, `(?=.*[k])` matches exactly when some character is in class `k` |
| `TextForm.PasswordStrongIff` | src/components/TextForm/index.jsx:22-25 | a password is strong exactly when it has at least 8 characters, all in `[A-Za-z0-9!@#$%^&*]`, including a lower-case letter, an upper-case letter, a digit and one of `!@#$%^&*` |
| `TextForm.ShortOrForeignIsWeak` | src/components/TextForm/index.jsx:23 | a password shorter than 8, or with a character outside the allowed set, is not strong |
| `TextForm.MissingPasswordIsWeak` | src/components/TextForm/index.jsx:23-24 | a missing password, tested as the text "undefined", is not strong |
| `TextForm.PasswordExamples` | src/components/TextForm/index.jsx:23 | "Secret1!" is strong and "abc" is not |
| `TextForm.Gate` | src/components/TextForm/index.jsx:30-50 | only for 'register': differing passwords refuse first; equal but weak passwords refuse next; otherwise, and for every other form type, the form submits |
| `TextForm.RegistrationChecksInOrder` | src/components/TextForm/index.jsx:30-49 | differing passwords are refused as a mismatch whatever their strength; equal passwords shorter than 8 or containing a space are refused as weak |
| `TextForm.OtherFormTypeRegistersUnchecked` | src/components/TextForm/index.jsx:30-52 | a form type other than 'login' or 'register' skips both checks, yet the hook sends a registration |
| `TextForm.Form.constructor` | src/components/TextForm/index.jsx:17-20 | the form starts with the initial values, a fresh hook of the same form type, and no handled responses |
| `TextForm.Form.OnSubmit` | src/components/TextForm/index.jsx:27-71 | a refused submission sends nothing and changes no store or hook state; otherwise the store settles the dispatched request; success is passed to `handleResponse` and `error` is cleared; failure calls nothing and leaves `error` as the hook set it |
| `Dashboard.InitialProfile` | src/pages/Dashboard/index.jsx:11-17 | the initial profile has the session's name, its email (empty when absent), and empty phone, bio and avatar |
| `Dashboard.Merged` | src/pages/Dashboard/index.jsx:31-37 | each field is the non-empty fetched value if there is one; otherwise name and email fall back to the initial profile, and the other fields to empty |
| `Dashboard.EmptyReplyGivesInitialProfile` | src/pages/Dashboard/index.jsx:11-37 | merging an empty reply gives exactly the initial profile |
| `Dashboard.CompleteReplyIsTakenAsIs` | src/pages/Dashboard/index.jsx:31-37 | a reply carrying a whole profile with a name and an email is taken unchanged |
| `Dashboard.ProfilePage.constructor` | src/pages/Dashboard/index.jsx:11-20 | the page starts with the initial profile, no file, not uploading, not editing and no calls |
| `Dashboard.ProfilePage.FetchUserData` | src/pages/Dashboard/index.jsx:25-50 | the fetch is sent only for an authenticated user; a fetched profile is merged; a failed fetch or an anonymous user leaves the profile unchanged |
| `Dashboard.IsImageType` | src/pages/Dashboard/index.jsx:54 | a type passing the check is `image/` followed by the rest of the type; a type shorter than `image/` never passes |
| `Dashboard.ImageTypeIff` | src/pages/Dashboard/index.jsx:54 | a type passes exactly when it is `image/` followed by any text |
| `Dashboard.ImageTypeExamples` | src/pages/Dashboard/index.jsx:54 | 'image/png' and 'image/jpeg' pass the image check; 'application/pdf' and 'imagepng' do not |
| `Dashboard.ProfilePage.HandleFileChange` | src/pages/Dashboard/index.jsx:52-63 | a selected non-image is refused and `file` is kept; otherwise `file` becomes the selection (nothing when cancelled); nothing else changes |
| `Dashboard.ProfilePage.PostAvatar` | src/pages/Dashboard/index.jsx:84-91 | may only run while `uploading` is true and a file is selected; sends the upload for the user and that file; a successful upload changes only the avatar |
| `Dashboard.ProfilePage.HandleUploadAvatar` | src/pages/Dashboard/index.jsx:69-108 | without a file nothing is sent and nothing changes; with one, `uploading` is set before `PostAvatar` sends the request; afterwards `uploading` is false and `file` cleared; success changes only the avatar |
| `Dashboard.IsEmail` | src/pages/Dashboard/index.jsx:112-113 | an address passing the check has at least five characters and neither starts nor ends with `@` (the full characterisation is `EmailIff`) |
| `Dashboard.EmailIff` | src/pages/Dashboard/index.jsx:112-113 | an address passes exactly when it has no white space and exactly one `@`, which is not first and is followed by a `.` with text on both sides |
| `Dashboard.EmailAccepted` | src/pages/Dashboard/index.jsx:112-113 | "a@b.com" passes the email check |
| `Dashboard.EmailRejected` | src/pages/Dashboard/index.jsx:112-113 | an address with two `@` or with a space fails the email check |
| `Dashboard.ProfilePage.HandleUpdateUserData` | src/pages/Dashboard/index.jsx:110-141 | nothing is sent and nothing changes unless the email passes the check; a successful update replaces the profile with the server's and leaves edit mode; a failed one changes nothing |
| `Dashboard.Edited` | src/pages/Dashboard/index.jsx:168-171 | the named field gets the value; every other field, the avatar included, keeps its value |
| `Dashboard.EditLaws` | src/pages/Dashboard/index.jsx:168-171 | writing back the old value undoes an edit; a second edit of a field overrides the first; edits of different fields commute |
| `Dashboard.ProfilePage.HandleInputChange` | src/pages/Dashboard/index.jsx:168-171 | the profile becomes `Edited` of the old one; nothing else changes |

## Left out

- HTTP transport: the axios instance, its interceptors and the request and
  response shapes. Replies are parameters. The bearer header that
  src/api/axiosConfig.js attaches when a token exists is not modelled.
- Asynchronous timing. Each handler runs to completion before the next one
  starts. Stale in-flight replies, replies arriving out of order, and
  handlers reading state captured by an older render are not modelled.
- Rendering, styling and notifications. The notice a handler would show is
  only reflected in its result: the `Submission` of `OnSubmit`, and the
  `refused` flag of `HandleFileChange`. `console` logging is left out too.
- The Login and Register pages, and the callback they pass as
  `handleResponse`. `OnSubmit` records the results it hands to that
  callback in `responses`.
- JSON encoding of the session snapshot: session storage holds the record
  itself. A corrupt snapshot, on which `JSON.parse` would throw, is not
  modelled.
- A failure to write to storage inside `register` or `loginWithCredentials`
  is not modelled. Such a failure would be caught and reported as a failed
  attempt.
- The hook's catch branch for an error that carries `response.data`. It is
  never reached: `register` and `loginWithCredentials` never throw.
- Dashboard actions outside the model: `handleDeleteUser` (it needs
  `window.confirm`), `handleAvatarClick`, and the buttons that turn edit
  mode on and off.
- `handleInputChange` takes only the four inputs of the edit form. A write
  to any other key is not modelled.
- Fields the server leaves out of a sign-in reply. `Identity` always holds
  four strings, and every `Ok` reply carries a `user`.
- Settled: does not model a successful reply that lacks `user`. The source
  stores the token first (src/contexts/UserContext.jsx:52, 81); then
  `setUserState(undefined)` throws, and the attempt reports failure with the
  token already written. `Settled` says instead that every failure leaves
  the token unchanged, because an `Err` outcome never carries a token.
- Navigation by assigning `window.location.href` reloads the page. The
  model only records the new path; a reload is a fresh `SessionStore` built
  from the two storage slots.
- Strings are sequences of Unicode scalar values, not UTF-16 code units.
  The two regular expressions only test characters from the Basic
  Multilingual Plane, so this does not change their verdicts.

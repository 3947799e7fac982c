# ChatEra front-end: session controller, password recovery and notification settings

This project is a Dafny model of the parts of the ChatEra chat front-end that hold logic.

- **Token store and session controller** (`FrontEnd/src/lib/auth.tsx`). The token store keeps one opaque session token in browser storage under the key `chatera-token` and swallows every storage error. The session controller is a three-state machine over `loading | authenticated | unauthenticated` with a nullable user. Its operations are startup validation (`loadUser`), `login`, `register`, `logout` and `getToken`.
- **Password-recovery form** (`FrontEnd/src/components/auth/PasswordResetForm.tsx`). This is a step machine over `request | confirmation | success`. It has a five-criterion password-strength score, a JavaScript-regex email check, two validators that set per-field messages in a fixed priority order, the submit handlers, and the effect that clears errors while the user types.
- **Notification settings** (`FrontEnd/src/components/settings/NotificationSettings.tsx`). This is a typed settings record with defaults. It has a dotted-key update that handles one- and two-segment keys and ignores longer ones, add-or-remove toggles on muted contacts and Do-Not-Disturb days, and the unsaved-changes flag.

Files:

- `common.dfy`: `Option` and JavaScript truthiness of strings.
- `token_store.dfy`: module `TokenStore`. It holds the storage functions, their lemmas, and the class `TokenStorage`.
- `auth.dfy`: module `Auth`. Each controller transition is a pure function of (session, outcome). Lemmas state the source's promises about those functions. The class `AuthProvider` updates `user`, `status` and the storage step by step, and each method is proved to equal its transition function.
- `password_reset.dfy`: module `PasswordReset`. It holds the pure strength and email functions with their lemmas, and the class `ResetForm` with the form's state fields.
- `notification_settings.dfy`: module `NotificationSettings`. It holds the settings record, keys as a datatype, the update and toggle functions with their lemmas, and the class `SettingsPanel`.

## How outside effects are represented

- Remote calls are inputs giving their outcome.
  - `/auth/me` is `MeReply`: a 2xx response with the body's optional user, a non-2xx response, or an exception.
  - `/auth/login` and `/auth/register` are `Reply`: a parsed response with `ok` and the body's optional `token`, `user` and `message`, or an exception. An exception covers a network failure and a body that does not parse as JSON.
  - The two mocked reset calls are booleans (`sent`, `reset`).
- Each storage call takes a `fails` flag that says whether `localStorage` throws for that call.
- The toast a login, registration or logout shows is returned as a `Notice`.
- The route logout navigates to is returned as `route`.
- The redirect after a successful reset is returned as `redirect`.

## Behaviour of the code worth knowing

- `validateConfirmationStep` checks length before strength (FrontEnd/src/components/auth/PasswordResetForm.tsx:228-233). So "weakpw" (six characters) gets "Password must be at least 8 characters", not the strength message (`WeakpwDrawsLengthMessage`).
- "password" meets the lowercase criterion and the length criterion (FrontEnd/src/components/auth/PasswordResetForm.tsx:116-123). It scores 2, which is weak (`StrengthOfPassword`).
- A failed `login` or `register` sets only the status (FrontEnd/src/lib/auth.tsx:166-176). `user` and the stored token stay as they were. So a failed re-login from an authenticated session ends `Unauthenticated` with the old user still set (`FailedReloginKeepsUser`).
- `loadUser` removes the token only on a non-2xx reply (FrontEnd/src/lib/auth.tsx:126-134). When the call throws, the token is kept (`LoadUserThrewKeepsToken`). When `removeItem` throws, the token also stays.
- An empty-string token counts as no token wherever the code tests truthiness: `!token` (FrontEnd/src/lib/auth.tsx:110), `data.token` (FrontEnd/src/lib/auth.tsx:159, 203), and the recovery `token` property (FrontEnd/src/components/auth/PasswordResetForm.tsx:67, 280).
- The form's `useAuth()` call (FrontEnd/src/components/auth/PasswordResetForm.tsx:63) destructures `requestPasswordReset`, `confirmPasswordReset` and `error`. The auth context (FrontEnd/src/lib/auth.tsx:35-42) provides none of them. So the auth-error effect never fires, and the submit handlers use the mocked calls.

## Model

| member | source | states |
|---|---|---|
| TokenStore.TokenStorage.SetToken | FrontEnd/src/lib/auth.tsx:63-69 | the storage gains `chatera-token` = token, or is unchanged when the write throws |
| TokenStore.TokenStorage.GetToken | FrontEnd/src/lib/auth.tsx:72-79 | returns the value under `chatera-token`, none when absent or when the read throws |
| TokenStore.TokenStorage.RemoveToken | FrontEnd/src/lib/auth.tsx:82-88 | the key is deleted, or the storage is unchanged when the delete throws |
| TokenStore.SetThenGet | FrontEnd/src/lib/auth.tsx:63-79 | with working storage, a read after `setToken(t)` returns `t` |
| TokenStore.FailuresAreSwallowed | FrontEnd/src/lib/auth.tsx:63-88 | a throwing write or delete changes nothing, and a throwing read yields no token |
| TokenStore.RemoveClears | FrontEnd/src/lib/auth.tsx:82-88 | after a working remove there is no token; on an empty store remove is a no-op |
| TokenStore.RemoveIdempotent | FrontEnd/src/lib/auth.tsx:82-88 | removing twice equals removing once, and it works if either call worked |
| TokenStore.OtherKeysUntouched | FrontEnd/src/lib/auth.tsx:63-88 | token operations leave every other storage key as it was |
| Auth.AuthProvider.constructor | FrontEnd/src/lib/auth.tsx:99-100 | the provider starts `Loading` with no user and the storage as found |
| Auth.InitialIsLoading | FrontEnd/src/lib/auth.tsx:99-100 | the initial session is `Loading` with user none |
| Auth.AuthProvider.LoadUser | FrontEnd/src/lib/auth.tsx:104-135 | the new user, status and storage are exactly those of the startup transition |
| Auth.LoadUserWithoutToken | FrontEnd/src/lib/auth.tsx:108-113 | with no readable truthy token, startup ends `Unauthenticated` with nothing else changed, whatever `/auth/me` would answer (it is not called) |
| Auth.LoadUserAccepted | FrontEnd/src/lib/auth.tsx:122-125 | an accepted token sets the returned user and `Authenticated` and keeps the storage |
| Auth.LoadUserRejected | FrontEnd/src/lib/auth.tsx:126-130 | a rejected token is purged (when storage works), status becomes `Unauthenticated` and the user is untouched |
| Auth.LoadUserThrewKeepsToken | FrontEnd/src/lib/auth.tsx:131-134 | a throwing validation call gives `Unauthenticated` and keeps the stored token |
| Auth.LoadUserSettles | FrontEnd/src/lib/auth.tsx:104-135 | startup never ends `Loading`, and ends `Authenticated` only with a truthy token still stored |
| Auth.AuthProvider.Login | FrontEnd/src/lib/auth.tsx:145-177 | the new session, the returned boolean and the toast are exactly those of the login transition |
| Auth.AuthProvider.Register | FrontEnd/src/lib/auth.tsx:184-221 | the same as login, with the registration messages |
| Auth.AttemptSucceedsIff | FrontEnd/src/lib/auth.tsx:159-176 | an attempt returns true exactly for a 2xx reply with a truthy token; it ends `Authenticated` then, else `Unauthenticated` |
| Auth.AttemptSuccess | FrontEnd/src/lib/auth.tsx:159-165 | on success the user is the reply's, the token is stored (readable again when storage works), and the success toast is shown |
| Auth.AttemptFailure | FrontEnd/src/lib/auth.tsx:166-176 | on failure only the status changes; the message is the server's when truthy, else "Login failed" / "Registration failed", and the "… Please try again." text when the call threw |
| Auth.InvalidCredentialsMessage | FrontEnd/src/lib/auth.tsx:166-170 | a login rejected with "Invalid credentials" returns false, stores no token and shows exactly that message |
| Auth.FailedReloginKeepsUser | FrontEnd/src/lib/auth.tsx:166-170 | a failed attempt from an authenticated session ends `Unauthenticated` with the old user and storage kept |
| Auth.AuthProvider.Logout | FrontEnd/src/lib/auth.tsx:228-234 | the new session is exactly that of the logout transition; it returns the toast "Logged out successfully" and the route `/login` |
| Auth.LogoutEnds | FrontEnd/src/lib/auth.tsx:228-231 | logout ends `Unauthenticated` with no user, and with no token when storage works, from any state |
| Auth.LogoutIdempotent | FrontEnd/src/lib/auth.tsx:228-231 | logging out twice equals logging out once |
| Auth.AuthProvider.GetToken | FrontEnd/src/lib/auth.tsx:241-243 | returns the stored token (none when the read throws) and changes no state |
| PasswordReset.InitialStep | FrontEnd/src/components/auth/PasswordResetForm.tsx:67 | the form never starts on the success step |
| PasswordReset.ResetForm.constructor | FrontEnd/src/components/auth/PasswordResetForm.tsx:67-86 | the step is `Confirmation` exactly when a truthy token is supplied, else `Request`; the email is the supplied one or empty; every error is null |
| PasswordReset.CountTrue | FrontEnd/src/components/auth/PasswordResetForm.tsx:122-123 | the count of true criteria is at most their number, and equals it exactly when all hold |
| PasswordReset.ScoreIsClassesPlusLength | FrontEnd/src/components/auth/PasswordResetForm.tsx:116-123 | the score is the number of character classes present plus one for length ≥ 8, hence at most 5 |
| PasswordReset.StrengthClasses | FrontEnd/src/components/auth/PasswordResetForm.tsx:125-133 | a non-empty password is weak iff its score ≤ 2, medium iff 3, strong iff 4, very strong iff 5 |
| PasswordReset.ShortIsNeverVeryStrong | FrontEnd/src/components/auth/PasswordResetForm.tsx:120-133 | a password shorter than 8 is never very strong |
| PasswordReset.ScoreMonotone | FrontEnd/src/components/auth/PasswordResetForm.tsx:116-123 | appending characters never lowers the score |
| PasswordReset.SymbolRangesAreTheList | FrontEnd/src/components/auth/PasswordResetForm.tsx:119 | the code-point ranges used for symbols are exactly the listed symbol set |
| PasswordReset.StrengthOfAbc | FrontEnd/src/components/auth/PasswordResetForm.tsx:109-134 | "abc" scores 1: weak |
| PasswordReset.StrengthOfPassword | FrontEnd/src/components/auth/PasswordResetForm.tsx:109-134 | "password" scores 2: weak |
| PasswordReset.StrengthOfAbcdefg1 | FrontEnd/src/components/auth/PasswordResetForm.tsx:109-134 | "Abcdefg1" scores 4: strong |
| PasswordReset.StrengthOfAbcdefg1Bang | FrontEnd/src/components/auth/PasswordResetForm.tsx:109-134 | "Abcdefg1!" scores 5: very strong |
| PasswordReset.EmailValidIff | FrontEnd/src/components/auth/PasswordResetForm.tsx:208-220 | an email passes iff it matches the pattern; "Email is required" is set iff it is blank after trimming |
| PasswordReset.EmailPatternCompose | FrontEnd/src/components/auth/PasswordResetForm.tsx:214 | any three non-empty runs free of white space and `@`, joined as `a@b.c`, match |
| PasswordReset.EmailPatternShape | FrontEnd/src/components/auth/PasswordResetForm.tsx:214 | a matching email has no white space and exactly one `@`, which is not its first character |
| PasswordReset.BlankEmailIsRequired | FrontEnd/src/components/auth/PasswordResetForm.tsx:211-213 | empty and white-space-only emails get "Email is required" |
| PasswordReset.EmailWithoutDotRejected | FrontEnd/src/components/auth/PasswordResetForm.tsx:214-216 | "user@example" gets "Please enter a valid email address" |
| PasswordReset.EmailAccepted | FrontEnd/src/components/auth/PasswordResetForm.tsx:214 | "user@example.com" passes |
| PasswordReset.PasswordAcceptedIff | FrontEnd/src/components/auth/PasswordResetForm.tsx:225-234 | a password passes iff its length is ≥ 8 and its score is ≥ 3; it then uses at least two character classes |
| PasswordReset.WeakMessageMeansOneClass | FrontEnd/src/components/auth/PasswordResetForm.tsx:228-233 | the "stronger password" message appears only for passwords of length ≥ 8 using at most one character class |
| PasswordReset.WeakpwDrawsLengthMessage | FrontEnd/src/components/auth/PasswordResetForm.tsx:225-230 | "weakpw" gets the length message, not the strength message |
| PasswordReset.BothFieldMessagesAtOnce | FrontEnd/src/components/auth/PasswordResetForm.tsx:225-242 | one submission can set both a password message and a confirm message |
| PasswordReset.ConfirmationValidIff | FrontEnd/src/components/auth/PasswordResetForm.tsx:222-245 | the confirmation step is valid iff the password has length ≥ 8, score ≥ 3, and the confirm field equals it |
| PasswordReset.ResetForm.ClearErrors | FrontEnd/src/components/auth/PasswordResetForm.tsx:89-94 | when the effect runs, each field error is cleared iff its field is non-empty, and the form error iff any field is |
| PasswordReset.ResetForm.ChangeEmail | FrontEnd/src/components/auth/PasswordResetForm.tsx:323 | sets the email; the clear-errors effect runs iff the value changed; nothing else changes |
| PasswordReset.ResetForm.ChangePassword | FrontEnd/src/components/auth/PasswordResetForm.tsx:387 | sets the password, runs the clear-errors effect iff it changed, and keeps the strength equal to the password's strength |
| PasswordReset.ResetForm.ChangeConfirmPassword | FrontEnd/src/components/auth/PasswordResetForm.tsx:422 | sets the confirm field; the clear-errors effect runs iff it changed |
| PasswordReset.ResetForm.ValidateRequestStep | FrontEnd/src/components/auth/PasswordResetForm.tsx:208-220 | returns true iff the email matches the pattern; on failure sets the email message by priority, never clears it |
| PasswordReset.ResetForm.ValidateConfirmationStep | FrontEnd/src/components/auth/PasswordResetForm.tsx:222-245 | returns true iff neither field has a message; each field's message is set independently, never cleared |
| PasswordReset.ResetForm.HandleRequestSubmit | FrontEnd/src/components/auth/PasswordResetForm.tsx:252-274 | runs on the request step (the only step showing its form) and stays there unless it succeeds; an invalid email leaves the step and the form error alone; a valid one reaches `Success` when the call succeeds, else stays with "Failed to send reset link…"; the step never moves back |
| PasswordReset.ResetForm.HandleConfirmationSubmit | FrontEnd/src/components/auth/PasswordResetForm.tsx:276-305 | runs on the confirmation step (the only step showing its form); validation comes first and sets `passwordError`/`confirmPasswordError` exactly where `PasswordError`/`ConfirmError` report a message, leaving the other field messages as they were; a missing token sets "Missing reset token…" without loading; a failed call sets the expired/invalid message; success redirects to login; the step never changes |
| NotificationSettings.DefaultsFacts | FrontEnd/src/components/settings/NotificationSettings.tsx:62-84 | the defaults: notifications on, volume 75, DND off on all seven distinct days, nobody muted, desktop/browser flags from the platform |
| NotificationSettings.SettingsPanel.constructor | FrontEnd/src/components/settings/NotificationSettings.tsx:62-87 | the panel starts with the defaults and no unsaved changes |
| NotificationSettings.TopValuesDetermineSettings | FrontEnd/src/components/settings/NotificationSettings.tsx:62-84 | two records with equal top-level fields are equal, so the accessors cover every field |
| NotificationSettings.OneSegmentReplacesField | FrontEnd/src/components/settings/NotificationSettings.tsx:122-123 | a one-segment key sets that top-level field to the value and leaves every other top-level field alone |
| NotificationSettings.SoundsKeyKeepsSiblings | FrontEnd/src/components/settings/NotificationSettings.tsx:124-132 | a `sounds.<child>` key sets that child, keeps its siblings and all other top-level fields |
| NotificationSettings.DndKeyKeepsSiblings | FrontEnd/src/components/settings/NotificationSettings.tsx:124-132 | a `doNotDisturb.<child>` key sets that child, keeps its siblings and all other top-level fields |
| NotificationSettings.LongerKeyIgnored | FrontEnd/src/components/settings/NotificationSettings.tsx:120-133 | a key of three or more segments leaves the settings unchanged |
| NotificationSettings.Without | FrontEnd/src/components/settings/NotificationSettings.tsx:157 | the id no longer occurs, every other element is kept, and the list does not grow |
| NotificationSettings.Toggle | FrontEnd/src/components/settings/NotificationSettings.tsx:152-165 | after a toggle the id is present iff it was absent; every other id's membership is unchanged |
| NotificationSettings.ToggleTwiceRestores | FrontEnd/src/components/settings/NotificationSettings.tsx:152-164 | toggling an absent id twice restores the original list |
| NotificationSettings.ToggleTwiceMovesToEnd | FrontEnd/src/components/settings/NotificationSettings.tsx:152-164 | toggling a present id twice leaves it once, at the end |
| NotificationSettings.ToggleKeepsOthersInOrder | FrontEnd/src/components/settings/NotificationSettings.tsx:152-164 | toggling keeps the other ids in their relative order |
| NotificationSettings.ToggleKeepsDistinct | FrontEnd/src/components/settings/NotificationSettings.tsx:152-164 | toggling keeps a duplicate-free list duplicate-free |
| NotificationSettings.SettingsPanel.HandleSettingChange | FrontEnd/src/components/settings/NotificationSettings.tsx:115-136 | the settings become the keyed update of the old ones, and the unsaved flag is set even for an ignored key |
| NotificationSettings.SettingsPanel.ToggleMuteContact | FrontEnd/src/components/settings/NotificationSettings.tsx:152-168 | only `mutedContacts` changes, to its toggle; the unsaved flag is set |
| NotificationSettings.SettingsPanel.HandleDayToggle | FrontEnd/src/components/settings/NotificationSettings.tsx:173-183 | only `doNotDisturb.days` changes, to its toggle, so DND enabled/scheduled/times are kept; the unsaved flag is set |
| TokenStore.Read | FrontEnd/src/lib/auth.tsx:74 | definition of `getItem('chatera-token')`: the stored value, none when the key is absent |
| TokenStore.ReadResult | FrontEnd/src/lib/auth.tsx:72-79 | definition of `getToken`: the stored token, none when the read throws |
| TokenStore.StoreResult | FrontEnd/src/lib/auth.tsx:63-69 | definition of `setToken`: the key set to the token, the storage unchanged when the write throws |
| TokenStore.RemoveResult | FrontEnd/src/lib/auth.tsx:82-88 | definition of `removeToken`: the key deleted, the storage unchanged when the delete throws |
| Auth.Initial | FrontEnd/src/lib/auth.tsx:99-100 | definition of the mount state: no user, status `Loading` |
| Auth.LoadUserStep | FrontEnd/src/lib/auth.tsx:106-135 | definition of `loadUser`: no truthy token gives `Unauthenticated`; otherwise the `/auth/me` outcome picks authenticate, purge-and-unauthenticate, or unauthenticate |
| Auth.AttemptStep | FrontEnd/src/lib/auth.tsx:145-221 | definition of `login`/`register`: status `Loading`, then accept a 2xx reply with a truthy token (store it, set the user), else only `Unauthenticated` with the prioritised message |
| Auth.LogoutStep | FrontEnd/src/lib/auth.tsx:228-231 | definition of `logout`: token removed, user none, status `Unauthenticated` |
| Auth.AuthProvider.Attempt | FrontEnd/src/lib/auth.tsx:145-221 | the shared body of `login` and `register`; its result and new state are exactly those of `AttemptStep` |
| PasswordReset.Criteria | FrontEnd/src/components/auth/PasswordResetForm.tsx:116-122 | definition of the five criteria, in the source order |
| PasswordReset.Score | FrontEnd/src/components/auth/PasswordResetForm.tsx:122-123 | definition of the score: the count of met criteria |
| PasswordReset.Classify | FrontEnd/src/components/auth/PasswordResetForm.tsx:125-133 | definition of the class thresholds: ≤ 2 weak, 3 medium, 4 strong, else very strong |
| PasswordReset.StrengthOf | FrontEnd/src/components/auth/PasswordResetForm.tsx:109-134 | definition of the strength effect: none for an empty password, else the class of its score |
| PasswordReset.EmailPattern | FrontEnd/src/components/auth/PasswordResetForm.tsx:214 | definition of `^[^\s@]+@[^\s@]+\.[^\s@]+$` as an `@` and a later `.` splitting the email into three non-empty plain runs |
| PasswordReset.EmailError | FrontEnd/src/components/auth/PasswordResetForm.tsx:211-217 | definition of the email message: "Email is required" when blank after trimming, else "Please enter a valid email address" when the pattern fails |
| PasswordReset.PasswordError | FrontEnd/src/components/auth/PasswordResetForm.tsx:225-234 | definition of the password message: required, then shorter than 8, then weak |
| PasswordReset.ConfirmError | FrontEnd/src/components/auth/PasswordResetForm.tsx:236-242 | definition of the confirm message: required, then mismatch |
| NotificationSettings.Defaults | FrontEnd/src/components/settings/NotificationSettings.tsx:62-84 | definition of the initial settings record |
| NotificationSettings.Apply | FrontEnd/src/components/settings/NotificationSettings.tsx:115-133 | definition of the keyed update: one segment sets a top-level field, two segments set a child of its group, longer keys change nothing |
| NotificationSettings.SetTop | FrontEnd/src/components/settings/NotificationSettings.tsx:123 | definition of `{ ...prev, [key]: value }` on the typed record |
| NotificationSettings.SetSounds | FrontEnd/src/components/settings/NotificationSettings.tsx:126-131 | definition of `{ ...prev.sounds, [child]: value }` |
| NotificationSettings.SetDnd | FrontEnd/src/components/settings/NotificationSettings.tsx:126-131 | definition of `{ ...prev.doNotDisturb, [child]: value }` |

## Left out

- HTTP transport, JSON parsing, `toast` display, `console.error` and `router.push` are I/O. Remote results are outcome inputs. The toasts of login, register and logout, the logout route and the reset redirect are returned values.
- `localStorage` internals are left out. Storage is a `map<string, string>` whose calls may throw, chosen per call by a flag.
- React hooks, context plumbing and effect scheduling are left out. Each effect is applied right after the state change that triggers it. An effect runs only when one of its inputs actually changed value.
- Each handler runs to completion. The intermediate `loading` status (login and register) and the `loading` flag (reset form) are set and then overwritten within one method, so they are not separately observable. No interleaving of two pending calls is modelled.
- The form's auth-error effect (`FrontEnd/src/components/auth/PasswordResetForm.tsx:97-102`) is left out. It reads an `error` field the auth context does not provide, so it never fires.
- The Tauri `isDesktop`/`fs`/`path` values are left out; `isDesktop` is only a constructor parameter of the settings panel. `requestPermissions` is a browser-permission foreign call.
- `playSound` is left out: it is media playback with a floating-point volume.
- `parseInt` on the volume slider is left out. The volume is an integer, and NaN is not represented.
- The mocked `setTimeout` delays, the show-password toggle and all JSX rendering are left out. That includes strength colours, widths and labels.
- The `onSaveChanges` notification to the parent is left out. It forwards `hasUnsavedChanges`, which is modelled.
- NotificationSettings.Apply: `handleSettingChange` takes an untyped `value`. The model requires a value of the named field's type (every call site passes one), and represents keys only over the known fields. A two-segment key naming an unknown field, or a one-segment key with a value of another type, is not representable.
- PasswordReset.StrengthOf: JavaScript's `length` counts UTF-16 code units. The model counts Unicode scalar values, so characters outside the Basic Multilingual Plane count once rather than twice.
- The account, privacy and settings-index pages are left out. They are page shells: a simulated save, a boolean pass-through and a redirect.

# ToonifyMe client logic, modelled in Dafny

ToonifyMe is a marketing site with one client-side workflow: upload a photo,
pick a cartoon style, and receive a (simulated) cartoon avatar. Login is a stub
that writes a fake token to `localStorage`. This project models the three small
state machines behind that site and proves properties of them:

1. **The avatar workflow** of the style-selection page (`StyleSelectionPage`),
   with the mock processing service (`Api`). The page state has six parts:
   - the selected style;
   - the uploaded image;
   - the cartoon image;
   - the processing flag;
   - the dragging flag;
   - the processed result.

   The events are:
   - a style pick;
   - a file-picker choice;
   - drag over, drag leave and drop;
   - a reader's load callback;
   - the start of a request;
   - the settling of a request.

   Two views are derived from the state: the result pane and the Download
   button. `processImage` is split into `Start` and `Settle`, so interleaved
   requests can be stated. Settling is not tied to its request, as in the code,
   so the last request to settle wins.
2. **The session stub** shared by the route guard (`ProtectedRoute`), the
   login form (`LoginForm`) and the header (`Header`). The session lives in a
   key-value store (`Session.LocalStorage`) under two keys:
   `toonifyMe_userToken` and `toonifyMe_userInfo`. `Flows` holds the
   cross-component properties:
   - a guarded visit goes to the login page and comes back to the same path;
   - logout revokes access;
   - the guard and the header disagree about an empty-string token.
3. **Account settings** (`AccountSettings`):
   - the form record and its field edits;
   - the profile save, which merges the form into the stored record;
   - the password change, which only compares the new password with its
     confirmation;
   - the plan lookup and the subscription display rules.

Each component that updates state in place is a class. Its fields are the
component's state, and each method's `ensures` gives the whole new state,
usually as a pure transition function of the old state. The lemmas about
interleavings and flows across components are stated over those functions.

Clocks, randomness and browser decoding are parameters:
- `now` stands for `Date.now()`;
- `random36` stands for the base-36 digits cut from `Math.random()`;
- `createdAt` stands for `new Date().toISOString()`;
- `dataUrl` stands for the `FileReader` result;
- `nameField` stands for the sign-up name input's value.

A `FileReader` is modelled as a `PendingRead`. It carries the `selectedStyle`
captured by the closure of the handler that started the read, and its load
callback is a separate event (`ReaderLoaded`). Likewise, the delayed login
callback (`CompleteSubmit`) uses the email and `from` path captured at submit
time (`PendingSubmit`).

Some behaviour of the code is worth stating outright, because the page's own
markup or comments point the other way:
- **Non-image files.** Only a drop checks the media type. The picker's handler
  reads any file (`PickFile`); only the input's `accept="image/*"`
  (src/pages/StyleSelectionPage.tsx:184) steers the browser's dialog.
- **Stale results.** The page has no guard against an older request settling
  after a newer one (`StaleResultOverwrites`), and the first of two
  outstanding requests to settle already ends the busy state
  (`EarlySettleEndsProcessing`). A failed request only ends processing; its
  catch block holds just a `// Handle error state` comment
  (src/pages/StyleSelectionPage.tsx:118).
- **Download button.** It is enabled when the cartoon image string is truthy
  and no request is busy, not when a result is stored
  (`DownloadEnabledIffCartoonShown`). `EnabledDownloadHasTarget` shows that,
  in every consistent state, an enabled button has a result to download.
- **A rejected drop.** A drop of a non-image file still clears the dragging
  flag (`Drop`).

## Model

| member | source | states |
|---|---|---|
| `Api.ProcessImage` | src/lib/api.ts:24-44 | the request always resolves; the result echoes the payload's image and style, its cartoon is `/avatar-cartoon.png`, and its id starts with `img_` |
| `Api.SaveProcessedImage` | src/lib/api.ts:51-60 | saving always reports `success = true` |
| `Api.DownloadName` | src/lib/api.ts:73 | the suggested file name starts with `toonifyme-` and ends with `.png` |
| `Api.DownloadNameRoundTrip` | src/lib/api.ts:73 | the file name determines the style and the timestamp it was built from, for any style string (even one containing `-`) |
| `Api.DownloadProcessedImage` | src/lib/api.ts:67-77 | the clicked link's href is the result's cartoon and its name is the download name; the body is unchanged afterwards (append, then remove) |
| `StyleSelectionPage.StyleRegistry` | src/pages/StyleSelectionPage.tsx:15-43 | four styles (simpsons, familyguy, southpark, disney) with distinct ids; the first is the default style |
| `StyleSelectionPage.FindStyle` | src/pages/StyleSelectionPage.tsx:131 | `find` by id returns the first option with that id, and none exactly when no option has it |
| `StyleSelectionPage.SelectedStyleObj` | src/pages/StyleSelectionPage.tsx:131 | the shown style is a registry entry: the selected one when its id is known, otherwise the first (`simpsons`) |
| `StyleSelectionPage.Payload` | src/pages/StyleSelectionPage.tsx:105-112 | a request carries the image, the style, and always `enhanceDetails = true, preserveColors = false` |
| `StyleSelectionPage.Settle` | src/pages/StyleSelectionPage.tsx:114-121 | processing ends either way; success installs the result's cartoon and the result; failure keeps cartoon and result as they were; nothing else changes |
| `StyleSelectionPage.SelectStyle` | src/pages/StyleSelectionPage.tsx:51-56 | the style is always recorded; a request is issued iff an image is present, for that image and the new style, and then the page is busy with no cartoon and the result kept; otherwise only the style changes |
| `StyleSelectionPage.PickFile` | src/pages/StyleSelectionPage.tsx:58-69 | any chosen file is read, with no type check, and the read uses the current style; no state changes |
| `StyleSelectionPage.Drop` | src/pages/StyleSelectionPage.tsx:80-94 | dragging ends; a read starts iff a file is present and its type starts with `image/`; nothing else changes |
| `StyleSelectionPage.ImageLoaded` | src/pages/StyleSelectionPage.tsx:62-66 | the decoded image replaces the uploaded one and is sent with the captured style; the page becomes busy with no cartoon; the style, the dragging flag and the result are kept |
| `StyleSelectionPage.ResultPane` | src/pages/StyleSelectionPage.tsx:239-260 | the spinner iff processing; the cartoon iff not processing and the cartoon is truthy; the placeholder otherwise |
| `StyleSelectionPage.DownloadEnabled` | src/pages/StyleSelectionPage.tsx:295 | Download is enabled exactly when the cartoon is truthy and no request is busy |
| `StyleSelectionPage.DownloadEnabledIffCartoonShown` | src/pages/StyleSelectionPage.tsx:295 | the Download button is enabled exactly when the pane shows a cartoon |
| `StyleSelectionPage.EnabledDownloadHasTarget` | src/pages/StyleSelectionPage.tsx:124-128 | in a consistent state, an enabled Download has a result to download, whose cartoon is the one on screen |
| `StyleSelectionPage.EventsPreserveConsistency` | src/pages/StyleSelectionPage.tsx:100-121 | the initial state and every event keep "a shown cartoon belongs to the stored result" |
| `StyleSelectionPage.LastResolvedSettleWins` | src/pages/StyleSelectionPage.tsx:114-121 | a successful settle erases any earlier settle: the state is as if only it had settled |
| `StyleSelectionPage.StaleResultOverwrites` | src/pages/StyleSelectionPage.tsx:100-121 | two requests (styles a, then b) that settle in reverse order leave the result for a while b is selected, and the download is named after a |
| `StyleSelectionPage.EarlySettleEndsProcessing` | src/pages/StyleSelectionPage.tsx:114-121 | with two requests outstanding, the first to settle ends the busy state and enables Download |
| `StyleSelectionPage.FailedRequestShowsPlaceholder` | src/pages/StyleSelectionPage.tsx:116-121 | after a failed request the pane shows the placeholder, Download is disabled, and the result is unchanged |
| `StyleSelectionPage.UploadThenDownload` | src/pages/StyleSelectionPage.tsx:43-69 | from the initial state an upload issues one `simpsons` request and shows the spinner; once it settles, the cartoon shows and Download is enabled for it |
| `StyleSelectionPage.Page.constructor` | src/pages/StyleSelectionPage.tsx:43-48 | the initial state: `simpsons`, no image, no cartoon, not processing, not dragging, no result |
| `StyleSelectionPage.Page.ProcessImageStart` | src/pages/StyleSelectionPage.tsx:100-112 | sets processing, clears the cartoon, leaves the result, and returns the request it sends |
| `StyleSelectionPage.Page.ProcessImageSettle` | src/pages/StyleSelectionPage.tsx:114-121 | the new state is `Settle` of the old one |
| `StyleSelectionPage.Page.HandleStyleSelect` | src/pages/StyleSelectionPage.tsx:51-56 | the new state and the issued request are `SelectStyle` of the old state |
| `StyleSelectionPage.Page.HandleFileUpload` | src/pages/StyleSelectionPage.tsx:58-69 | returns the read `PickFile` describes |
| `StyleSelectionPage.Page.HandleDragOver` | src/pages/StyleSelectionPage.tsx:71-74 | only the dragging flag changes, to true |
| `StyleSelectionPage.Page.HandleDragLeave` | src/pages/StyleSelectionPage.tsx:76-78 | only the dragging flag changes, to false |
| `StyleSelectionPage.Page.HandleDrop` | src/pages/StyleSelectionPage.tsx:80-94 | the new state and the started read are `Drop` of the old state |
| `StyleSelectionPage.Page.ReaderLoaded` | src/pages/StyleSelectionPage.tsx:87-91 | the new state and the request are `ImageLoaded` of the old state |
| `StyleSelectionPage.Page.HandleDownload` | src/pages/StyleSelectionPage.tsx:124-128 | clicks a link iff a result is stored, with the result's cartoon and download name, and leaves the body as it was; a click on an enabled button saves the cartoon on screen |
| `ProtectedRoute.HasToken` | src/components/ProtectedRoute.tsx:6-8 | a token counts iff its key is stored, whatever its value: the empty string counts although it is falsy, and every truthy token counts |
| `ProtectedRoute.IsAuthenticated` | src/components/ProtectedRoute.tsx:6-8 | authenticated iff the token key is present, whatever its value (even empty) |
| `ProtectedRoute.Route.constructor` | src/components/ProtectedRoute.tsx:15-17 | starts loading and not authenticated |
| `ProtectedRoute.Route.CheckAuth` | src/components/ProtectedRoute.tsx:19-24 | after the check, loading is false and `authenticated` equals the token test |
| `ProtectedRoute.Route.Render` | src/components/ProtectedRoute.tsx:26-40 | while loading, only the spinner; then the children iff authenticated; otherwise a replacing redirect to `/login` that carries the current location as `from` |
| `ProtectedRoute.Decide` | src/components/ProtectedRoute.tsx:35-40 | once checked: the children iff a token is stored, otherwise the redirect to `/login` with `from` |
| `ProtectedRoute.MountAndRender` | src/components/ProtectedRoute.tsx:14-41 | a mounted guard that has run its effect renders exactly what `Decide` gives for the store |
| `LoginForm.FromPath` | src/components/login-form.tsx:32 | `from` is the redirect's `from.pathname` when present and non-empty, else `/`; it is never empty |
| `LoginForm.RedirectTarget` | src/components/login-form.tsx:65-69 | sign-up goes to `/style-selection`; login goes to `from`, except that `/` becomes `/style-selection`; the target is never `/` |
| `LoginForm.Token` | src/components/login-form.tsx:41 | the stored token starts with `user_` and is non-empty |
| `LoginForm.NewUserInfo` | src/components/login-form.tsx:47-52 | the stored record has the entered email, `isActive = true`, the name field on sign-up or `User` on login, and no subscription |
| `LoginForm.SignIn` | src/components/login-form.tsx:43-52 | a submit writes the token and the record under their two keys, and every other key is kept |
| `LoginForm.Form.constructor` | src/components/login-form.tsx:27-29 | not loading; email and password empty |
| `LoginForm.Form.SetEmail` | src/components/login-form.tsx:119 | only the email changes |
| `LoginForm.Form.SetPassword` | src/components/login-form.tsx:152 | only the password changes |
| `LoginForm.Form.HandleSubmit` | src/components/login-form.tsx:34-36 | the form becomes busy, the handler validates nothing, and the callback captures the email and `from` |
| `LoginForm.Form.CompleteSubmit` | src/components/login-form.tsx:39-70 | the store gets `SignIn` with a fresh token and the captured email; loading ends; the navigation target is `RedirectTarget`; the password is never read |
| `Header.IsHomePage` | src/components/Header.tsx:22 | the home page is exactly the path `/` |
| `Header.LoggedIn` | src/components/Header.tsx:30-31 | logged in iff a token other than the empty string is stored; this implies the guard's token test |
| `Header.InfoAfterCheck` | src/components/Header.tsx:29-45 | without a (truthy) token the record is dropped; with one, the stored record when it parses, otherwise the previous record |
| `Header.SignOut` | src/components/Header.tsx:52-53 | logout removes both keys and keeps every other key |
| `Header.DisplayName` | src/components/Header.tsx:123 | the record's name, or `User` when there is no record or its name is absent or empty |
| `Header.Nav.constructor` | src/components/Header.tsx:23-25 | logged out, no record, menu closed |
| `Header.Nav.CheckAuth` | src/components/Header.tsx:28-48 | `isLoggedIn` iff a non-empty token is stored; the record is `InfoAfterCheck` of the previous one; the menu is unchanged |
| `Header.Nav.HandleLogout` | src/components/Header.tsx:51-58 | the store is `SignOut` of the old one; logged out, no record, menu closed; the header navigates to `/` |
| `Header.Nav.ToggleMobileMenu` | src/components/Header.tsx:79-81 | the menu flag is negated (so two toggles restore it); the rest is unchanged |
| `Header.Nav.CloseMobileMenu` | src/components/Header.tsx:195 | the menu links close the menu and change nothing else |
| `Header.Nav.ScrollToSection` | src/components/Header.tsx:61-76 | the menu always closes; on the home page there is no navigation; elsewhere the location becomes `/#` + section id |
| `AccountSettings.WithField` | src/pages/AccountSettings.tsx:57-63 | the named field takes the value; every other field keeps its value |
| `AccountSettings.OrEmpty` | src/pages/AccountSettings.tsx:44-45 | a missing or empty string defaults to the empty string, any other is kept |
| `AccountSettings.Load` | src/pages/AccountSettings.tsx:36-52 | a stored record that parses becomes `userInfo`, and its name and email (defaulting to empty) fill the form; an absent, empty or unparsable record changes nothing |
| `AccountSettings.MergeProfile` | src/pages/AccountSettings.tsx:71-75 | the saved record is the old record with name and email from the form, and all else kept; without a record, only name and email |
| `AccountSettings.PasswordUpdate` | src/pages/AccountSettings.tsx:98-122 | a mismatch iff new and confirmation differ, and then the form is unchanged; otherwise the three password fields are cleared and name and email are kept |
| `AccountSettings.CurrentPasswordIgnored` | src/pages/AccountSettings.tsx:108-122 | the current password never affects the outcome |
| `AccountSettings.GetPlanDetails` | src/pages/AccountSettings.tsx:134-161 | `pro` gives Pro Plan, `$9.99/month`, 4 features; `premium` gives Premium Plan, `$19.99/month`, 6; every other string gives Free Plan, `$0/month`, 3 |
| `AccountSettings.PlanDetailsDistinct` | src/pages/AccountSettings.tsx:154-159 | any plan other than pro and premium is shown exactly like `free`, and the three plans differ |
| `AccountSettings.DisplayedPlan` | src/pages/AccountSettings.tsx:289 | the shown plan is the stored one when truthy, otherwise `free` |
| `AccountSettings.ShowsUpgrade` | src/pages/AccountSettings.tsx:312 | the upgrade section shows iff the stored plan is literally `free`, and then the free plan is the one displayed |
| `AccountSettings.StatusLabel` | src/pages/AccountSettings.tsx:296 | "Active" iff the stored status is exactly `active`, otherwise "Inactive" |
| `AccountSettings.FreePlanDisplayVersusUpgrade` | src/pages/AccountSettings.tsx:289-312 | without a subscription the free plan is shown but no upgrade is offered; the upgrade section appears only for a literal `free` plan |
| `AccountSettings.Page.constructor` | src/pages/AccountSettings.tsx:23-32 | no record, loading, not saving, empty form |
| `AccountSettings.Page.LoadUserInfo` | src/pages/AccountSettings.tsx:36-55 | loading ends in every case; the record and form are `Load` of the old ones |
| `AccountSettings.Page.HandleInputChange` | src/pages/AccountSettings.tsx:57-63 | the form is `WithField` of the old one; nothing else changes |
| `AccountSettings.Page.HandleProfileUpdate` | src/pages/AccountSettings.tsx:65-92 | the merged record is stored and kept; the form is unchanged and saving ends |
| `AccountSettings.Page.HandlePasswordUpdate` | src/pages/AccountSettings.tsx:94-132 | the outcome and form are `PasswordUpdate` of the old form; saving ends; the record is untouched |
| `Flows.GuardLoginRoundTrip` | src/components/login-form.tsx:32-69 | a signed-out visit to a path P (not `/`) redirects to `/login`; logging in there returns to P, which the guard then lets through, and the header shows the user logged in |
| `Flows.SubmitAuthenticates` | src/components/login-form.tsx:41-44 | after any submit, sign-up or login, both the guard and the header see a session |
| `Flows.LoginThenHeaderAndSettings` | src/components/login-form.tsx:47-52 | after a login the header names the user `User`, and the account form shows `User` and the entered email |
| `Flows.FreshAccountPlanDisplay` | src/pages/AccountSettings.tsx:289-312 | a freshly stored record has no subscription: the free plan and "Inactive" are shown, and no upgrade is offered |
| `Flows.LogoutRevokesAccess` | src/components/Header.tsx:51-58 | after logout the guard redirects, the header is logged out, and its record is dropped |
| `Flows.LogoutUndoesLogin` | src/components/Header.tsx:52-53 | logging out after a login leaves the same store as logging out without it |
| `Flows.EmptyTokenDisagreement` | src/components/Header.tsx:30-31 | the guard and the header disagree exactly when the stored token is the empty string; then the guard admits and the header shows logged out |

## Left out

- Timers: the 2-second and 1-second service delays and the 1.5-second login delay. They become separate events (`Settle`, `CompleteSubmit`) that may happen at any later time.
- `Strings.NatToDecimal`: renders every natural number as plain decimal digits. JavaScript switches to exponent form from 1e21 upward and is inexact above 2^53; timestamps stay far below both.
- Clock and randomness: `Date.now()`, `Math.random()` and `toISOString()` are parameters. The length of the random id suffix (`substring(2, 12)`) is not constrained.
- `FileReader` decoding: the data URL is a parameter. A read that fails never calls its load callback, so it produces no event.
- JSON: a stored value is a serialized user record or text that fails to parse. Text that parses to a non-record (such as `null`) is treated as a parse failure. Record properties beyond name, email, `isActive`, `createdAt` and subscription are not modelled.
- DOM and UI effects are not modelled:
  - toasts and `console` logging;
  - CSS class choices;
  - `window.scrollTo` on the home page;
  - `scrollIntoView`;
  - the hidden file input's `click()` (`handleClick`);
  - the actual navigation, beyond the computed target path.
- `Api.DownloadProcessedImage`: the anchor's click is the browser's file save and is not modelled. The body is a sequence of element values, so the removal takes off the last element rather than a node by identity.
- `AccountSettings.Page.HandleProfileUpdate`: does not model the catch branch taken when the browser refuses the write (for example, a full storage quota). The model's store always accepts a write.
- `AccountSettings.Page.HandlePasswordUpdate`: the catch branch is not modelled. Nothing in its try block can throw in the model.
- A stale-response guard or request sequence numbers: the code has neither, so neither is modelled. The result shown is the last one to settle, not the one for the most recent request (`StaleResultOverwrites`).
- The browser's native input constraints: `required` and `type="email"` on the login inputs (src/components/login-form.tsx:115-117, 150) and `accept="image/*"` on the file input (src/pages/StyleSelectionPage.tsx:184). The browser applies them before any handler runs, so `LoginForm.Form.HandleSubmit` accepts an empty or malformed email and an empty password, and `PickFile` accepts any file.
- Presentation-only components: hero, footer, how-it-works, pricing, before/after and call-to-action sections, and the login page wrapper.
- The home page's hash scrolling and the router configuration. `/style-selection` and `/account` are the guarded routes.

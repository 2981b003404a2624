# A verified model of the RAJAC admission portal

The RAJAC admission portal is a web front end through which parents sign
up, fill in one admission form per account, book a test slot, and through
which administrators review the submitted applications. Storage and
authentication live in a hosted backend. This project models the local
logic that sits on top of it, and proves properties of that model:

- the form validation schema;
- the security utilities: the rate limiter, the input sanitiser, the e-mail
  and phone checks, password scoring, one-time CSRF tokens and the expiring
  session record;
- the two session providers (admin and parent);
- the page flows: the form page, the sign-up/sign-in page, the admission form
  with its check-then-insert, the test-slot page and the two admin dashboards.

The backend is abstract state:

- a `Backend.Table` class holding the `admission_forms` rows;
- a `Storage.KeyValueStore` class for `localStorage` and `sessionStorage`;
- inputs for every remote answer: the outcome of a lookup, an insert or an
  update, the RPC result, the remote session.

Clocks, random token text and the year of a date string are parameters.

Modules:

| file | module | models |
|---|---|---|
| base.dfy | `Base` | `Option`, JavaScript `trim`, `toLowerCase`, `includes`, `filter` and counting |
| patterns.dfy | `Patterns` | the four regular expressions of the validation module, as predicates |
| validation.dfy | `Validation` | the zod schemas and `validateForm` |
| security.dfy | `Security` | `RateLimiter`, `sanitizeInput`, `isValidEmail`, `isValidPhoneNumber`, `validatePasswordStrength`, `CSRFProtection`, `SessionManager` |
| storage.dfy | `Storage` | a browser key/value store and the records kept in it |
| backend.dfy | `Backend` | rows, columns, `.eq("user_id")`, `maybeSingle`, `insert`, `update` |
| admin_auth.dfy | `AdminAuth` | the admin session provider |
| parent_auth.dfy | `ParentAuth` | the parent session provider |
| admission_form.dfy | `AdmissionFormPage` | the admission form component |
| form_page.dfy | `FormPage` | the form page |
| auth_page.dfy | `AuthPage` | the sign-up / sign-in page |
| enter_outlook.dfy | `EnterOutlookPage` | the test-slot page |
| portal_dashboard.dfy | `PortalDashboard` | the admin dashboard of `rajac-admission-portal-main` |
| root_dashboard.dfy | `RootDashboard` | the admin dashboard of `src` |

Modelling choices:

- Each React component with state is a class. Its `useState` variables are
  fields, and its navigations are a `navigations: seq<string>` field that
  records the routes in order.
- Handlers and effects are methods. Each one runs to completion, in the order
  the code awaits.

## Model

| member | source | states |
|---|---|---|
| Patterns.PhoneAcceptedIffWellFormed | src/lib/validation.ts:4 | the phone expression accepts a string iff it is an optional "+20" or "0", then "1", then one of 0/1/2/5, then exactly eight digits |
| Patterns.MatchedPhoneWellFormed | src/lib/validation.ts:4 | an accepted number splits into prefix, operator digit and eight digits |
| Patterns.WellFormedPhoneMatched | src/lib/validation.ts:4 | every prefix / operator / eight-digit combination is accepted |
| Patterns.PhoneExamples | src/lib/validation.ts:4 | "01012345678" is accepted and "0701234567" is refused |
| Patterns.EmailAcceptedIffShaped | src/lib/validation.ts:5 | the e-mail expression accepts exactly the strings with no white space and exactly one '@' that is not first, followed by a domain holding a '.' with text on both sides |
| Patterns.MatchedEmailShaped | src/lib/validation.ts:5 | an accepted address has that shape |
| Patterns.ShapedEmailMatched | src/lib/validation.ts:5 | a string of that shape is accepted |
| Validation.EnglishNameAccepted | src/lib/validation.ts:7-20 | a student first or last name passes iff it has 2..50 characters, each an ASCII letter or white space |
| Validation.ArabicNameAccepted | src/lib/validation.ts:6-25 | the Arabic name passes iff it has 2..100 characters, each in U+0600..U+06FF or white space |
| Validation.StudentDobAccepted | src/lib/validation.ts:26-34 | the student's date of birth passes iff it is non-empty, names a valid year, and the year difference is in [3, 18] |
| Validation.EmptyDobTwoIssues | src/lib/validation.ts:26-34 | the empty date of birth fails both the required check and the age check |
| Validation.StudentAccepted | src/lib/validation.ts:10-54 | the student's fields pass iff the nine student rules hold, including gender being exactly "Male" or "Female" |
| Validation.ScholarAccepted | src/lib/validation.ts:57-74 | the school fields pass iff school and grade are within their bounds and the optional previous school and notes, when present, have at most 100 and 500 characters |
| Validation.GuardianDobAccepted | src/lib/validation.ts:82-90 | a guardian's date of birth passes iff it is non-empty and the year difference is in [18, 100] |
| Validation.AcceptedEmailShaped | src/lib/validation.ts:95-99 | an accepted guardian e-mail has no white space and exactly one '@', with a non-empty local part and a dotted domain |
| Validation.PhoneNonEmpty | src/lib/validation.ts:91-94 | a number the expression accepts also passes the required check |
| Validation.EmailNonEmpty | src/lib/validation.ts:95-99 | an address the expression accepts also passes the required check |
| Validation.GuardianAccepted | src/lib/validation.ts:77-112 | a guardian's seven fields pass iff every guardian rule holds |
| Validation.GuardiansJudgedAlike | src/lib/validation.ts:121-135 | the father's and the mother's fields are judged by the same rules |
| Validation.FormAccepted | src/lib/validation.ts:115-136 | the complete schema reports no issue iff every rule holds |
| Validation.ValidateForm | src/lib/validation.ts:145-155 | a success carries the data unchanged; a failure carries at least one message |
| Validation.ValidateFormAcceptsIffRulesHold | src/lib/validation.ts:145-155 | `validateForm` succeeds iff every rule holds; otherwise it returns one "path: message" string per broken rule, in schema order |
| Security.RateLimiter.constructor | src/lib/security.ts:9-12 | the defaults are 5 attempts per 15 minutes, and there are no records |
| Security.RateLimiter.Lookup | src/lib/security.ts:16 | the record kept for an identifier, if any |
| Security.RateLimiter.IsAllowed | src/lib/security.ts:14-34 | a missing or expired record restarts the window with count 1 and allows; a record at the limit refuses and is kept; otherwise the count goes up by one and the call is allowed; other identifiers keep their records; every count stays within bounds |
| Security.StepKeepsBound | src/lib/security.ts:18-33 | every call leaves a count from 1 up to the limit (exactly 1 when the limit is below 1), so with a limit of at least 1 the count never exceeds it |
| Security.AllowedCalls | src/lib/security.ts:14-34 | a run of calls allows at most as many calls as were made |
| Security.WindowAllowsRemaining | src/lib/security.ts:28-40 | inside a window exactly `max(0, maxAttempts - count)` further calls are allowed (or all, if fewer): the figure `getRemainingAttempts` reports |
| Security.AtMostMaxPerWindow | src/lib/security.ts:14-34 | from a fresh identifier, calls within one window of the first are allowed at most `maxAttempts` times (once if the limit is below 1) |
| Security.RateLimiter.GetRemainingAttempts | src/lib/security.ts:36-40 | the limit for an unknown identifier, otherwise `max(0, maxAttempts - count)` |
| Security.RateLimiter.GetResetTime | src/lib/security.ts:42-45 | the record's reset time, or null without a record |
| Security.RateLimiter.Clear | src/lib/security.ts:47-49 | exactly that identifier's record is removed |
| Security.CreateLimiters | src/lib/security.ts:203-205 | three fresh limiters: 3 per hour, 5 per 15 minutes, 100 per minute |
| Security.RemoveScheme | src/lib/security.ts:59 | one pass of the "javascript:" removal never lengthens the text, and a pass that removes nothing returns it unchanged |
| Security.RemoveHandlers | src/lib/security.ts:60 | one pass of the `on…=` removal never lengthens the text, and a pass that removes nothing returns it unchanged |
| Security.HandlerLength | src/lib/security.ts:60 | the `on\w+=` match at the start is absent or at least four characters long |
| Security.WordRun | src/lib/security.ts:60 | the longest run of `\w` characters at the start of a text |
| Security.Truncate | src/lib/security.ts:61 | `substring(0, 1000)` is a prefix of at most 1000 characters |
| Security.SanitizeInput | src/lib/security.ts:53-62 | the output has at most 1000 characters and no '<' or '>'; it is a subsequence of the input; a non-string gives "" |
| Security.SanitizedShape | src/lib/security.ts:56-61 | whatever the removals leave, once cut to 1000 characters, has no angle brackets and is a subsequence of the input |
| Security.TrimIsSubsequence | src/lib/security.ts:57 | the trimmed text is a subsequence of the input |
| Security.StripAnglesShape | src/lib/security.ts:58 | removing angle brackets leaves a subsequence with none |
| Security.RemoveSchemeIsSubsequence | src/lib/security.ts:59 | the scheme pass keeps a subsequence of its input |
| Security.RemoveHandlersIsSubsequence | src/lib/security.ts:60 | the handler pass keeps a subsequence of its input |
| Security.SchemeSurvivesSinglePass | src/lib/security.ts:59-60 | for every case variant w of "javascript:", sanitising `w[..4] + w + w[4..]` returns w (the as-written half of the finding) |
| Security.SinglePassJoins | src/lib/security.ts:59 | the scheme pass over the nested text removes the inner occurrence and leaves the outer one joined |
| Security.SanitizeInputFixed | src/lib/security.ts:53-62 | the corrected sanitiser keeps every promise of `SanitizeInput`, and its output contains no "javascript:" in any case and no `on…=` |
| Security.ScrubClean | src/lib/security.ts:59-60 | repeating both removals until nothing changes leaves neither pattern |
| Security.ScrubIsSubsequence | src/lib/security.ts:59-60 | the repeated removals keep a subsequence of the input |
| Security.SchemeFreeAtFixpoint | src/lib/security.ts:59 | a text that one scheme pass leaves unchanged contains no "javascript:" |
| Security.HandlerFreeAtFixpoint | src/lib/security.ts:60 | a text that one handler pass leaves unchanged contains no `on…=` |
| Security.TruncateKeepsClean | src/lib/security.ts:61 | cutting a text short cannot create either pattern |
| Security.IsValidEmail | src/lib/security.ts:65-68 | an accepted address has at most 254 characters |
| Security.ValidEmailIffShaped | src/lib/security.ts:65-68 | `isValidEmail` holds iff the address has the one-'@' shape and at most 254 characters |
| Security.EmailChecksAgree | src/lib/security.ts:65-68 | an address the form schema accepts passes `isValidEmail` unless it is longer than 254 characters; `isValidEmail` accepts only addresses matching the schema's expression |
| Security.PhoneChecksAgree | src/lib/security.ts:71-74 | `isValidPhoneNumber` accepts exactly the numbers the schema's guardian phone rule accepts |
| Security.Criteria | src/lib/security.ts:85-101 | the five criteria, in order |
| Security.CountMet | src/lib/security.ts:83-101 | the number of criteria met among the first k is at most k |
| Security.Missed | src/lib/security.ts:82-101 | the advice for the unmet criteria among the first k, at most k messages |
| Security.ValidatePasswordStrength | src/lib/security.ts:77-108 | the score is the number of criteria met; the feedback is the advice for each unmet criterion, in order, or ["Strong password!"] when there is none; the password is valid iff the score is at least 4 |
| Security.MissedAndScore | src/lib/security.ts:85-101 | each criterion either scores or gets advice: the two add up to the number judged |
| Security.AdviceIffFailed | src/lib/security.ts:85-101 | with distinct messages, a criterion's advice is given iff the criterion fails |
| Security.StrengthFeedback | src/lib/security.ts:77-108 | the score is in 0..5; there is no advice iff all five criteria hold; each criterion's advice appears iff it fails; "Strong password!" is never advice; the password is valid iff at most one criterion fails |
| Security.CsrfProtection.constructor | src/lib/security.ts:112 | no token is valid at first |
| Security.CsrfProtection.GenerateToken | src/lib/security.ts:114-124 | the supplied token text is returned and becomes valid |
| Security.CsrfProtection.ExpireToken | src/lib/security.ts:119-121 | after the one-hour timer fires, the token is no longer valid |
| Security.CsrfProtection.ValidateToken | src/lib/security.ts:126-132 | true iff the token was valid; afterwards it is not, so a second validation fails |
| Security.NewSession | src/lib/security.ts:154-161 | a created session expires 24 hours after its creation time |
| Security.CreateSession | src/lib/security.ts:154-168 | the session record is stored under 'rajac_session'; a failing `setItem` changes nothing |
| Security.ClearSession | src/lib/security.ts:188-194 | exactly the 'rajac_session' key is removed; a caught `removeItem` failure leaves the store as it was |
| Security.GetSession | src/lib/security.ts:170-186 | returns the stored session until its expiry time; once now is past it, returns null and removes the key (kept when the caught `removeItem` fails); a missing key or unreadable text gives null; a caught `getItem` failure gives null and changes nothing |
| Security.IsSessionValid | src/lib/security.ts:196-199 | true iff `getSession` returns a session (never after a failed `getItem`), with the same effect on the store |
| Security.SessionLifetime | src/lib/security.ts:152-186 | a session created at `now` is returned unchanged at every time up to 24 hours later; after that the read returns null, removes the key and keeps all other keys |
| Security.ReadSessionKeepsOtherKeys | src/lib/security.ts:170-186 | a session read never touches any key but 'rajac_session' |
| Storage.KeyValueStore.GetItem | src/hooks/useAdminAuth.tsx:33 | `getItem` returns the stored value, or null for a missing key |
| Storage.KeyValueStore.SetItem | src/hooks/useAdminAuth.tsx:53 | `setItem` writes exactly that key |
| Storage.KeyValueStore.RemoveItem | src/hooks/useAdminAuth.tsx:62 | `removeItem` deletes exactly that key |
| AdminAuth.AdminAuthProvider.constructor | src/hooks/useAdminAuth.tsx:28-29 | no admin, and loading |
| AdminAuth.AdminAuthProvider.Init | src/hooks/useAdminAuth.tsx:31-38 | nothing or "" stored keeps the admin; a stored admin row becomes the admin; any other record becomes a truthy parsed admin; text becomes a truthy parsed admin or null as `JSON.parse` yields, or, when the parse throws, leaves admin and loading as they were; loading ends in every case but the throw; storage is only read |
| AdminAuth.AdminAuthProvider.SignIn | src/hooks/useAdminAuth.tsx:40-58 | an RPC error, null data or no rows give 'Invalid email or password'; a thrown RPC gives 'Login failed. Please try again.'; neither changes admin or storage; otherwise the first row becomes the admin and, when `setItem` succeeds, is stored under 'admin' with a null error; when `setItem` throws, storage is unchanged and the error is 'Login failed. Please try again.' while the admin stays set |
| AdminAuth.AdminAuthProvider.SignOut | src/hooks/useAdminAuth.tsx:60-63 | no admin, and only the 'admin' key removed |
| AdminAuth.RestoreAfterSignIn | src/hooks/useAdminAuth.tsx:31-38 | a reload after a successful, stored sign-in restores exactly the admin that was stored (lines 35 and 53), and loading ends |
| AdminAuth.SignInLostOnReload | src/hooks/useAdminAuth.tsx:51-56 | when `setItem` throws, the sign-in reports 'Login failed' with the admin set, and with nothing stored before a reload restores no admin |
| AdminAuth.RestoreAfterSignOut | src/hooks/useAdminAuth.tsx:60-63 | a reload after a sign-out restores no admin, and loading ends |
| AdminAuth.UnparsableTextKeepsLoading | src/hooks/useAdminAuth.tsx:33-37 | for non-empty text under 'admin' that `JSON.parse` rejects, the reloaded provider's effect throws before `setLoading(false)`: no admin, and loading still on |
| AdminAuth.TruthyTextCountsAsAdmin | src/hooks/useAdminAuth.tsx:33-37 | non-empty text under 'admin' that parses to a truthy value is held as the admin after a reload, and loading ends |
| ParentAuth.UserOf | src/hooks/useAuth.tsx:44 | the session's user, and null exactly when there is no session |
| ParentAuth.Admitted | src/hooks/useAuth.tsx:49-58 | the remote session is kept iff it exists and session storage holds a truthy token |
| ParentAuth.AuthProvider.constructor | src/hooks/useAuth.tsx:23-25 | no user, no session, loading, nothing registered |
| ParentAuth.AuthProvider.Mount | src/hooks/useAuth.tsx:38-46 | both unload handlers and the auth-change listener are registered |
| ParentAuth.AuthProvider.OnPageEvent | src/hooks/useAuth.tsx:29-35 | a registered unload event removes exactly the two local-storage token keys and requests a remote sign-out; session storage is untouched |
| ParentAuth.AuthProvider.OnAuthStateChange | src/hooks/useAuth.tsx:42-46 | the session becomes the event's session, the user its user or null, and loading ends |
| ParentAuth.AuthProvider.OnInitialSession | src/hooks/useAuth.tsx:49-60 | the remote session is kept only with the tab's token; otherwise user and session become null; loading ends |
| ParentAuth.AuthProvider.SignOut | src/hooks/useAuth.tsx:69-75 | a remote sign-out, then exactly the two local-storage keys and the session-storage token key are removed |
| ParentAuth.AuthProvider.Teardown | src/hooks/useAuth.tsx:62-66 | the listener is unsubscribed and both window handlers removed |
| ParentAuth.StartAfterSignOut | src/hooks/useAuth.tsx:49-75 | a provider started after `signOut` restores no user, whatever session `getSession` reports (the auth-change listener is not gated by the tab token) |
| Backend.Col | src/integrations/supabase/types.ts:37-73 | a column's value, null when absent |
| Backend.IdOf | rajac-admission-portal-main/src/pages/EnterOutlook.tsx:52 | `user?.id` |
| Backend.RowsOf | src/pages/Form.tsx:21-25 | `.eq("user_id", id)` selects exactly the rows owned by that id; an absent id selects none |
| Backend.MaybeSingle | src/pages/Form.tsx:21-26 | `maybeSingle` returns a row iff the request succeeds and exactly one row matches; it belongs to the user |
| Backend.AtMostOneRow | src/pages/Form.tsx:21-26 | with one row per user, at most one row matches a user id |
| Backend.FoundIffOwned | src/pages/Form.tsx:21-33 | with one row per user, a lookup that reaches the server finds a row iff the user owns one |
| Backend.InsertKeepsOnePerUser | rajac-admission-portal-main/src/components/AdmissionForm.tsx:83-117 | appending a row for a user who owns none keeps one row per user |
| Backend.Updated | rajac-admission-portal-main/src/pages/EnterOutlook.tsx:45-52 | `.update(changes).eq("user_id", id)` overwrites the given columns in that user's rows and keeps every other row and column |
| Backend.UpdatedKeepsOwners | rajac-admission-portal-main/src/pages/EnterOutlook.tsx:45-52 | an update changes neither the number of rows nor their keys and owners |
| Backend.Table.Lookup | src/pages/Form.tsx:21-26 | the row found is in the table and owned by the user |
| Backend.Table.Insert | rajac-admission-portal-main/src/components/AdmissionForm.tsx:83-119 | a successful insert appends the row; a failed one changes nothing |
| Backend.Table.Update | rajac-admission-portal-main/src/pages/EnterOutlook.tsx:45-56 | a successful update applies `Updated`; a failed one changes nothing |
| AdmissionFormPage.InitialForm | rajac-admission-portal-main/src/components/AdmissionForm.tsx:21-49 | all 27 fields, each the empty string |
| AdmissionFormPage.FieldListed | rajac-admission-portal-main/src/components/AdmissionForm.tsx:21-49 | every field is among the 27 |
| AdmissionFormPage.FieldOfColumnOf | rajac-admission-portal-main/src/components/AdmissionForm.tsx:87-114 | the field-to-column mapping can be read backwards |
| AdmissionFormPage.ColumnOfInjective | rajac-admission-portal-main/src/components/AdmissionForm.tsx:87-114 | distinct fields go to distinct columns, none of them one the insert leaves null (test date, test time, test result, status, admin notes) |
| AdmissionFormPage.RowFor | rajac-admission-portal-main/src/components/AdmissionForm.tsx:86-115 | the inserted row is owned by the user and holds each field's text in its snake_case column, and nothing else |
| AdmissionFormPage.AdmissionForm.constructor | rajac-admission-portal-main/src/components/AdmissionForm.tsx:13-49 | the redirect defaults to "/enter-outlook"; empty form, not submitting, no error |
| AdmissionFormPage.AdmissionForm.HandleChange | rajac-admission-portal-main/src/components/AdmissionForm.tsx:51-57 | the named field takes the value; every other field is unchanged |
| AdmissionFormPage.AdmissionForm.HandleSubmit | rajac-admission-portal-main/src/components/AdmissionForm.tsx:59-127 | without a user: "User not found." and nothing else happens; with an existing row: "You have already filled the admission form." and the table is unchanged; otherwise one row is inserted; a failed insert gives "Could not submit form. Please try again."; each error turns submitting off; on success submitting stays on and the page moves to the redirect |
| AdmissionFormPage.SubmitKeepsOnePerUser | rajac-admission-portal-main/src/components/AdmissionForm.tsx:71-117 | a submission whose lookup reaches the server keeps one row per user, and adds a row iff the user had none and the insert succeeds |
| AdmissionFormPage.RepeatedSubmitsKeepOneRow | rajac-admission-portal-main/src/components/AdmissionForm.tsx:71-85 | any run of submissions by one user, one after the other, never gives that user a second row |
| AdmissionFormPage.FailedLookupAllowsSecondRow | rajac-admission-portal-main/src/components/AdmissionForm.tsx:71-77 | the lookup's error is ignored: a failed lookup followed by a successful insert gives a user with a row a second one |
| FormPage.PageView | src/pages/Form.tsx:37-50 | the loading view iff loading or the lookup has not answered; the form (redirecting to "/enter-outlook") iff a user has no row; otherwise nothing |
| FormPage.EffectRoutes | src/pages/Form.tsx:15-35 | "/auth" iff loading is over without a user; "/dashboard" iff a user has a row |
| FormPage.NeverFormAndDashboard | src/pages/Form.tsx:27-38 | for one lookup result the page never both renders the form and moves to the dashboard; a user without a row sees the form |
| FormPage.FormPage.constructor | src/pages/Form.tsx:13 | the lookup has not answered |
| FormPage.FormPage.RunEffect | src/pages/Form.tsx:15-35 | the effect records whether the user's row exists and navigates as `EffectRoutes` says |
| AuthPage.Destination | rajac-admission-portal-main/src/pages/Auth.tsx:31-35 | "/dashboard" iff the user owns a row, "/form" otherwise |
| AuthPage.AuthPage.constructor | rajac-admission-portal-main/src/pages/Auth.tsx:14-16 | the page opens on the sign-up step, not loading, without an error |
| AuthPage.AuthPage.RedirectEffect | rajac-admission-portal-main/src/pages/Auth.tsx:22-39 | a signed-in visitor is sent on by whether they own a row; without a user nothing happens |
| AuthPage.AuthPage.HandleSignUp | rajac-admission-portal-main/src/pages/Auth.tsx:42-63 | a failure shows the provider's message and keeps the step; a success moves to the credentials step; loading is off either way |
| AuthPage.AuthPage.HandleLogin | rajac-admission-portal-main/src/pages/Auth.tsx:66-94 | a failure shows the message and does not navigate; a success navigates by whether the signed-in user owns a row |
| AuthPage.AuthPage.OnSubmit | rajac-admission-portal-main/src/pages/Auth.tsx:114 | on the sign-up step: no navigation, and a success moves to the confirmation step with no error; on the sign-in step: the step stays, and a success clears the error and navigates by the reported user's row; either step's failure shows the message; the confirmation step changes nothing |
| AuthPage.AuthPage.SwitchToLogin | rajac-admission-portal-main/src/pages/Auth.tsx:96-99 | the step becomes sign-in and the error is cleared |
| AuthPage.AuthPage.SwitchToSignUp | rajac-admission-portal-main/src/pages/Auth.tsx:101-104 | the step becomes sign-up and the error is cleared |
| AuthPage.AuthPage.ProceedToForm | rajac-admission-portal-main/src/pages/Auth.tsx:240 | the credentials step's button moves to "/form" |
| EnterOutlookPage.BeforeT | rajac-admission-portal-main/src/pages/EnterOutlook.tsx:48 | `split("T")[0]` is the longest prefix without a 'T' |
| EnterOutlookPage.IsoDatePart | rajac-admission-portal-main/src/pages/EnterOutlook.tsx:48 | for `toISOString` text, the date part is the first ten characters |
| EnterOutlookPage.SlotChanges | rajac-admission-portal-main/src/pages/EnterOutlook.tsx:47-51 | the update sets exactly test_date, test_time and status ("Test Slot Booked") |
| EnterOutlookPage.BookingTouchesOnlySlotColumns | rajac-admission-portal-main/src/pages/EnterOutlook.tsx:45-52 | a booking changes only that user's rows, and in them only the three slot columns, to the chosen values |
| EnterOutlookPage.WithoutUserNothingBooked | rajac-admission-portal-main/src/pages/EnterOutlook.tsx:52 | with no user the update filters on an absent id and changes no row |
| EnterOutlookPage.EnterOutlook.constructor | rajac-admission-portal-main/src/pages/EnterOutlook.tsx:19-22 | no date, an empty time, no error, not submitting |
| EnterOutlookPage.EnterOutlook.AuthEffect | rajac-admission-portal-main/src/pages/EnterOutlook.tsx:24-28 | without a user once loading is over, the page moves to "/auth" |
| EnterOutlookPage.EnterOutlook.SelectDate | rajac-admission-portal-main/src/pages/EnterOutlook.tsx:86-94 | a disabled day is ignored; otherwise the day (or none) is taken; so a newly selected day is never before the start of today |
| EnterOutlookPage.EnterOutlook.SelectTime | rajac-admission-portal-main/src/pages/EnterOutlook.tsx:104 | the time input sets the time |
| EnterOutlookPage.EnterOutlook.HandleSubmit | rajac-admission-portal-main/src/pages/EnterOutlook.tsx:30-66 | a missing date is reported before a missing time, and either stops without an update; otherwise the slot is written to the user's rows, submitting is off afterwards, a failure is reported and a success moves to "/pay-fees" |
| Base.SearchFilter | rajac-admission-portal-main/src/pages/AdminDashboard.tsx:45-59 | the shown list is an order-preserving subsequence of the applications, for either dashboard's matching rule |
| Base.SearchFilterSpec | rajac-admission-portal-main/src/pages/AdminDashboard.tsx:45-59 | a query that trims to "" shows every application; any other shows exactly those the page's matching rule accepts (here: the lower-cased father name or "first last" name, nulls as "", contains the lower-cased, untrimmed query) |
| PortalDashboard.Stats | rajac-admission-portal-main/src/pages/AdminDashboard.tsx:143-165 | total is the list's length, and the three buckets together never exceed it |
| PortalDashboard.BucketsDisjoint | rajac-admission-portal-main/src/pages/AdminDashboard.tsx:151-163 | no status is in two of the Passed, Failed and Pending buckets |
| PortalDashboard.StatsIgnoreSearch | rajac-admission-portal-main/src/pages/AdminDashboard.tsx:146-163 | the counts are over the full list; a search result never has more Passed, Failed or Pending applications than the panel shows |
| PortalDashboard.Dashboard.constructor | rajac-admission-portal-main/src/pages/AdminDashboard.tsx:28-31 | empty lists, loading, empty query |
| PortalDashboard.Dashboard.RedirectEffect | rajac-admission-portal-main/src/pages/AdminDashboard.tsx:33-37 | without an admin once the session has loaded, the page moves to "/admin/login" |
| PortalDashboard.Dashboard.FetchApplications | rajac-admission-portal-main/src/pages/AdminDashboard.tsx:61-74 | the returned rows (none for null data) replace the list; an error leaves it; loading is off afterwards |
| PortalDashboard.Dashboard.FetchEffect | rajac-admission-portal-main/src/pages/AdminDashboard.tsx:39-43 | the fetch runs only with an admin |
| PortalDashboard.Dashboard.Search | rajac-admission-portal-main/src/pages/AdminDashboard.tsx:130-133 | typing sets the query, and the shown list becomes the filter of the applications, a subsequence of them |
| PortalDashboard.Dashboard.FilterEffect | rajac-admission-portal-main/src/pages/AdminDashboard.tsx:45-59 | the shown list becomes `SearchFilter` of the applications and the query under the page's `Matches` |
| PortalDashboard.Dashboard.Statistics | rajac-admission-portal-main/src/pages/AdminDashboard.tsx:143-165 | the panel shows the length of the full list and its Passed, Failed and Pending counts, which together are at most the total |
| PortalDashboard.Dashboard.HandleSignOut | rajac-admission-portal-main/src/pages/AdminDashboard.tsx:76-79 | the admin session and its stored key are cleared, then the page moves to "/admin/login" |
| RootDashboard.Normalize | src/pages/AdminDashboard.tsx:72-104 | each listed column that is null becomes "" and a value is kept; unlisted columns, the key, the owner and the creation time pass through |
| RootDashboard.NormalizeAll | src/pages/AdminDashboard.tsx:72-104 | the same rows in the same order, each normalised |
| RootDashboard.NormalizeIdempotent | src/pages/AdminDashboard.tsx:72-104 | normalising twice changes nothing more, and no listed column is null afterwards |
| RootDashboard.NormalizeAllNormalised | src/pages/AdminDashboard.tsx:72-104 | every row a fetch displays has a value in every listed column, so `father_name.toLowerCase()` never meets null |
| RootDashboard.NullFirstNameMatchesNull | src/pages/AdminDashboard.tsx:122 | student names are not normalised, so a row without a first name is found by searching "null" |
| RootDashboard.Dashboard.constructor | src/pages/AdminDashboard.tsx:52-54 | empty lists and an empty term |
| RootDashboard.Dashboard.RedirectEffect | src/pages/AdminDashboard.tsx:57-61 | without an admin once the session has loaded, the page moves to "/admin-login" |
| RootDashboard.Dashboard.FetchApplications | src/pages/AdminDashboard.tsx:63-108 | a successful fetch makes both lists the normalised rows; an error (or null data) leaves both; a list with no null listed column keeps that property |
| RootDashboard.Dashboard.FetchEffect | src/pages/AdminDashboard.tsx:110-114 | the fetch runs only with an admin: with one, fetched rows are normalised into both lists, and an error or null data leaves both lists as they were; without one nothing changes; every listed column stays non-null |
| RootDashboard.Dashboard.Search | src/pages/AdminDashboard.tsx:116-126 | typing sets the term, and the shown list becomes `SearchFilter` under this page's `Matches` (father name or the template-literal "first last" name contains the term, ignoring case); by `Base.SearchFilterSpec` a blank term shows all and any other exactly the matches |
| RootDashboard.Dashboard.FilterEffect | src/pages/AdminDashboard.tsx:116-126 | the shown list becomes `SearchFilter` of the applications and the term under the page's `Matches` |
| RootDashboard.Dashboard.HandleLogout | src/pages/AdminDashboard.tsx:128-130 | only a move to "/admin-login"; the admin session and its stored key stay |

## Left out

- The hosted backend itself is not modelled: the auth sign-up, sign-in and sign-out, the table requests and the `verify_admin_login` procedure. Its answers are inputs: success or failure of each request, the rows returned, the signed-in user, the remote session.
- Concurrency is not modelled. Each handler runs to completion, in the order the code awaits. The two-tab race between the existence check and the insert is out of scope, and so is React's batching of state updates.
- The order the server returns rows in (`order("created_at")`) is not modelled. We take the list as it arrives.
- Default values of the database columns are not modelled. A column the insert does not write is null.
- The calendar and dates are not modelled: `Date`, `toISOString`, time zones and `date-fns` formatting. The year of a date string (None for an invalid date), the current year, the start of today and each picked day's instant and ISO text are inputs.
- Randomness and timers are not modelled. `generateSecureToken`, the random CSRF token text and the clock are parameters. The one-hour token expiry is the separate `ExpireToken` step. The one-second delay before a redirect is dropped.
- `escapeHtml` and `getSecurityHeaders` are left out: one is DOM behaviour, the other a constant.
- zod's own `.email()` check is not modelled. It is the parameter `Context.isLibraryEmail`, and only the explicit regular expression is modelled.
- JSON serialisation is not modelled. A stored value is either text written by other code or a record written by the portal, and records round-trip unchanged. What `JSON.parse` makes of text under 'admin' is the input `AdminAuth.ParsedText`: it throws, or yields a falsy or a truthy value. A falsy value is held as null, and a truthy one as `AdminAuth.Parsed`, since the pages only test whether an admin is present.
- The schema's length messages say "less than N characters", but the code's `.max(N)` accepts exactly N. The model follows the code.
- Security.GetSession: any text, and any record other than a session record, under 'rajac_session' reads as null, and the key is kept. The code returns whatever `JSON.parse` yields, unless its `expiresAt` is a number in the past or reading it throws. In the first case it removes the key and returns null, so `{"expiresAt":0}` is removed at any later time. In the second it returns null. An admin record stored there would be returned as it is, since `Date.now() > undefined` is false.
- Security.CreateSession: reads the clock once. The code calls `Date.now()` twice, so `expiresAt - createdAt` can exceed 24 hours by the milliseconds between the calls.
- AdminAuth.AdminAuthProvider.Init: when `JSON.parse` throws, the model stops the effect with admin null and loading still on. In the code the exception escapes the effect, and with no error boundary around the provider the whole page is lost, rather than staying on "Loading...".
- Storage exceptions are not modelled, except where the code catches them: `createSession`, `getSession` and `clearSession` in the session manager, and the admin `signIn`.
- `toLowerCase` and the `i` flag fold ASCII letters only.
- Strings are sequences of Unicode code points, where JavaScript counts UTF-16 code units. A character outside the Basic Multilingual Plane (an emoji, say) counts once here and twice in the code. So every length bound counts such text differently: the schema's `.min`/`.max`, `substring(0, 1000)` in `sanitizeInput`, the 254-character e-mail bound and the 8-character password test. For text made only of characters inside that plane, the model's lengths and the code's agree.
- Validation.ValidateForm: takes a complete record of strings, where the code takes any value. A missing field, a value that is not a string or input that is not an object is a zod error in the code ("Required", "Expected string, received …", "Expected object, received null"), and the model does not produce those messages. The 'Unknown validation error' branch, for an exception that is not a zod error, is not modelled either. No page modelled in this project calls `validateForm`; it only ever receives the typed form data.
- Only the error-handling effect of the JSX is kept. Markup, i18n, alerts, toasts and the buttons that only navigate back or home are left out.
- The five tests of `validatePasswordStrength` are computed once, by `Security.Criteria`. Each step of the method branches on that list rather than running its regular expression in place.
- Snake_case column names appear only through `Backend.ColumnName` and `AdmissionFormPage.ColumnOf`. Rows are keyed by an enumerated `Column`.
- Lookup errors are ignored by the code. Only `data` is looked at, so a failed lookup reads as "no row". `AdmissionFormPage.FailedLookupAllowsSecondRow` shows what follows from that.

## Findings

| source | as written | input that shows it | evidently intended | confidence | as-written member | corrected member |
|---|---|---|---|---|---|---|
| src/lib/security.ts:59-60 | one `replace` pass removes each "javascript:" it finds, and the text around a removed occurrence can join into a new one | "javajavascript:script:" sanitises to "javascript:" | the output holds no "javascript:" (nor `on…=`) | not executed | Security.SchemeSurvivesSinglePass | Security.SanitizeInputFixed |

# SULABH grievance portal: a Dafny model of the front end's core

SULABH is a React front end where citizens file and track grievances. This
project models the parts of it that hold logic, and proves properties about them:

- **Complaint store** (`ComplaintContext`). This is the provider's `complaints`
  list and its `loading` flag. Four operations act on it:
  - `submitComplaint` appends a new complaint. Its id is `CMP` plus the
    position, zero-padded to at least three digits. It also gets one audit entry.
  - `updateComplaint` merges a partial record into every complaint with the
    given id, and stamps `updatedAt`.
  - `getComplaint` and `trackComplaint` look up the first complaint with an id.
  - `getComplaintsByUser` filters by owner and keeps store order.
- **Session manager** (`AuthContext`). This is the `user` and `loading` state.
  It is driven by:
  - the initial session check and session-change events;
  - login and logout;
  - registration, which classifies "already registered" errors.

  It also maps a profile row to a `User`.
- **Submit-complaint page** (`SubmitComplaintPage`). This covers:
  - the form schema;
  - the attachment list, capped at five files, with removal by index;
  - the payload sent to the store;
  - the page's `error` and `success` banners.
- **Register page** (`RegisterPage`). This covers:
  - the registration schema, including the password-match refinement;
  - the projection of the form onto the data passed to `register`;
  - the single failure message;
  - the `isSubmitting` flag.
- **Auth callback** (`AuthCallback`). This is what the page does with the
  `error`, `type` and `code` query parameters of an authentication redirect,
  and the `verifying`/`error` state it ends in.
- **Complaint details page** (`ComplaintDetailsPage`). This covers:
  - the status and priority badges and icons;
  - the not-found rule;
  - the timeline connectors;
  - the feedback stars and the optional information rows.
- **Types** (`Types`). These are the records and enumerations of
  `src/types/index.ts`.
  - The submit input `ComplaintInput` has no `id`, `userId`, `submittedAt`,
    `updatedAt` or `updates` field, so callers cannot set them.
  - `Partial<Complaint>` is `ComplaintPatch`. Each of its keys is either
    absent or given. An optional field may be given as `undefined`, which is
    `Some(None)`.

How the model represents the program:

- **Calls to the identity provider and the backing store are inputs.** Each
  such call becomes a parameter carrying the value the call resolved to, or
  the message of the error it threw. For `signUp` a returned error and a
  thrown one are distinct inputs, because the code treats them differently.
  The store's calls only simulate a backend with a `setTimeout` delay, which
  never rejects. The `backendFails` flag stands for a backend failure that
  the code as written cannot reach. With it false the model follows the code
  exactly.
- **Time is an input.** Timestamps are milliseconds, as `nat`. Each
  operation reads the clock once, as the parameter `now`.
- **JavaScript string lengths are written out.** `length` counts UTF-16 code
  units, so a character outside the Basic Multilingual Plane counts twice.
  The schema minimums use `Strings.JsLength`, not the character count.
- **JavaScript truthiness is written out.** The empty string is falsy, so:
  - `profile.phone || undefined` turns `''` into an absent phone;
  - an empty route id shows the not-found view;
  - an absent query parameter renders as `null` in a template literal.
- **Modules follow the source files.** There is one Dafny module per source
  file. `Wrappers` holds the `Option`, `Result` and `Validation` datatypes.
  `Strings` models the JavaScript string built-ins the core uses:
  `String(n)`, `padStart`, `includes`, `toLowerCase` and `length`, and the
  truthiness of a string that may be missing.

Some behaviours of the code differ from what a reader of the portal might
expect. The model follows the code:

- **`logout`.** One might expect local state to clear even when sign-out
  fails. The code clears `user` only after `signOut` resolves. When `signOut`
  throws, the error is logged and `user` stays.
- **`updatedAt` after an update.** One might expect it to strictly increase.
  The code stamps `new Date()`, which does not guarantee that, so the model
  claims only that `updatedAt` equals the clock value passed in.
- **The `citizen` role on registration.** One might expect every new account
  to get it. The code writes that role only when sign-up returns a user. An
  error from that profile write aborts the registration.
- **Unknown ids in `updateComplaint`.** One might expect an error. An id no
  complaint has is a silent no-op.
- **A thrown sign-up error.** One might expect every duplicate error to get
  the friendly message. Only an error that `signUp` returns goes through the
  duplicate test. One that it throws reaches the outer `catch` directly and
  keeps its own message.

## Model

| member | source | states |
|---|---|---|
| Types.AllRoles | src/types/index.ts:7 | A role is exactly one of four values, and the four names are distinct. |
| Types.AllCategories | src/types/index.ts:48-54 | There are exactly six categories, with distinct names. |
| Types.AllPriorities | src/types/index.ts:56 | There are exactly four priorities, with distinct names. |
| Types.AllStatuses | src/types/index.ts:58-63 | There are exactly five statuses, `closed` among them, with distinct names. |
| Types.ParseCategory | src/pages/SubmitComplaintPage.tsx:19 | `z.enum` of the six categories accepts a string exactly when it is a category's name, and gives back that category. |
| Types.ParsePriority | src/pages/SubmitComplaintPage.tsx:23 | `z.enum` of the four priorities accepts a string exactly when it is a priority's name, and gives back that priority. |
| Strings.Contains | src/contexts/AuthContext.tsx:112-115 | `includes` is true exactly when the piece occurs at some position of the string. |
| Strings.ContainsTransitive | src/contexts/AuthContext.tsx:111-115 | A piece that occurs inside a phrase also occurs in every string containing that phrase. |
| Strings.Present | src/components/Auth/AuthCallback.tsx:21-25 | JavaScript truthiness of a string that may be missing: present and not empty. Used for the query parameters and for `v \|\| undefined`. |
| Strings.JsLength | src/pages/SubmitComplaintPage.tsx:20-22 | `length` counts UTF-16 code units: at least the number of characters and at most twice it. |
| Strings.JsLengthBmp | src/pages/SubmitComplaintPage.tsx:20-22 | On the Basic Multilingual Plane, `length` is the number of characters. |
| Strings.EmojiCountsTwice | src/pages/RegisterPage.tsx:11 | An emoji is one character but has `length` 2, so it alone meets a minimum of 2. |
| Strings.Lower | src/contexts/AuthContext.tsx:107 | `toLowerCase` keeps the length and lower-cases each character. |
| Strings.LowerIdempotent | src/contexts/AuthContext.tsx:107 | Lower-casing twice is the same as lower-casing once. |
| Strings.Decimal | src/contexts/ComplaintContext.tsx:98 | `String(n)` is a non-empty string of digits with no leading zero when n is at least 1. |
| Strings.DecimalRoundTrip | src/contexts/ComplaintContext.tsx:98 | Reading back the digits of `String(n)` gives n. |
| Strings.PadStart | src/contexts/ComplaintContext.tsx:98 | `padStart` left-pads to the width, never truncates, and ends with the original string. |
| Strings.LeadingZerosValue | src/contexts/ComplaintContext.tsx:98 | Leading zeros do not change the number a digit string denotes. |
| ComplaintContext.ComplaintId | src/contexts/ComplaintContext.tsx:98 | `CMP${String(n).padStart(3, '0')}`. Its shape, round trip and injectivity are stated by ComplaintIdShape, ComplaintIdRoundTrip and ComplaintIdInjective. |
| ComplaintContext.ComplaintIdShape | src/contexts/ComplaintContext.tsx:98 | An id is `CMP`, then zeros, then the decimal of n, with at least three characters after `CMP`. |
| ComplaintContext.ComplaintIdRoundTrip | src/contexts/ComplaintContext.tsx:98 | Parsing the number back out of the id gives n. |
| ComplaintContext.ComplaintIdInjective | src/contexts/ComplaintContext.tsx:98 | Different positions get different ids. |
| ComplaintContext.FirstTwoIds | src/contexts/ComplaintContext.tsx:22-46 | The id rule gives `CMP001` and `CMP002` for the first two positions. |
| ComplaintContext.MockComplaints | src/contexts/ComplaintContext.tsx:20-83 | The starting table holds two complaints. MockIdsCanonical states their ids. |
| ComplaintContext.MockIdsCanonical | src/contexts/ComplaintContext.tsx:20-83 | Each sample complaint carries the id its position gives. |
| ComplaintContext.CanonicalIdsUnique | src/contexts/ComplaintContext.tsx:98 | A table numbered by position has no two complaints with the same id. |
| ComplaintContext.OwnerId | src/contexts/ComplaintContext.tsx:99 | `user?.id \|\| ''` is empty exactly when there is no user or the user's id is empty, and is that id otherwise. |
| ComplaintContext.NewComplaint | src/contexts/ComplaintContext.tsx:96-112 | The record a submit builds. SubmitThenFind states its id, owner, status and single audit entry. |
| ComplaintContext.SubmitKeepsCanonical | src/contexts/ComplaintContext.tsx:96-114 | Appending a new complaint keeps every complaint under the id its position gives. |
| ComplaintContext.SubmitThenFind | src/contexts/ComplaintContext.tsx:96-115 | See the note below the table. |
| ComplaintContext.SubmitThenOwned | src/contexts/ComplaintContext.tsx:114 | After a submit, the owner's listing is the old listing with the new complaint added at the end. |
| ComplaintContext.Merge | src/contexts/ComplaintContext.tsx:131 | `updatedAt` is `now`, even when the partial carries its own. For every other key: a key the partial has gives its value, and `Some(None)` clears an optional field. An absent key keeps the complaint's value. |
| ComplaintContext.MergeEmptyPatch | src/contexts/ComplaintContext.tsx:131 | An empty partial changes nothing but `updatedAt`. |
| ComplaintContext.CombinePatches | src/contexts/ComplaintContext.tsx:131 | `{ ...first, ...second }`, where the later partial wins on each key. MergeTwice states that merging with it equals two merges in a row. |
| ComplaintContext.MergeTwice | src/contexts/ComplaintContext.tsx:131 | Two spreads in a row equal one spread of the combined partial, where the later value wins on each key, stamped with the second time. |
| ComplaintContext.MergeById | src/contexts/ComplaintContext.tsx:129-133 | The length is unchanged, and so is every complaint with another id. Every complaint with the id is merged. |
| ComplaintContext.MergeUnknownId | src/contexts/ComplaintContext.tsx:129-133 | An id no complaint has leaves the table unchanged. |
| ComplaintContext.MergeByIdTwice | src/contexts/ComplaintContext.tsx:129-133 | Two updates of one id equal one update with the combined partial, provided the first partial keeps the id. |
| ComplaintContext.UpdateKeepsCanonical | src/contexts/ComplaintContext.tsx:129-133 | An update whose partial has no `id` key, or repeats the id, keeps the numbering. |
| ComplaintContext.UpdateCanDuplicateIds | src/contexts/ComplaintContext.tsx:131 | A partial that carries another complaint's id leaves two complaints sharing that id. The spread accepts any key. |
| ComplaintContext.UpdateThenFind | src/contexts/ComplaintContext.tsx:129-133 | After an update that keeps the id, the lookup finds the merged record, and a miss stays a miss. |
| ComplaintContext.Find | src/contexts/ComplaintContext.tsx:142 | `find` gives none exactly when no complaint has the id. Otherwise it gives the complaint at the first matching position. |
| ComplaintContext.FindFirst | src/contexts/ComplaintContext.tsx:142 | The complaint at the first matching position is what `find` returns. |
| ComplaintContext.OwnedBy | src/contexts/ComplaintContext.tsx:146 | `filter` keeps exactly the complaints with that `userId`. |
| ComplaintContext.OwnedByAppend | src/contexts/ComplaintContext.tsx:146 | The filter distributes over concatenation, so store order is kept. |
| ComplaintContext.ComplaintStore.constructor | src/contexts/ComplaintContext.tsx:86-87 | The store starts with the two sample complaints and `loading` false. |
| ComplaintContext.ComplaintStore.SubmitComplaint | src/contexts/ComplaintContext.tsx:90-121 | See the note below the table. |
| ComplaintContext.ComplaintStore.UpdateComplaint | src/contexts/ComplaintContext.tsx:123-139 | On success the table becomes the merge-by-id of the old table. On failure it is unchanged and the call rejects with `'Failed to update complaint'`. `loading` ends false. |
| ComplaintContext.ComplaintStore.GetComplaint | src/contexts/ComplaintContext.tsx:141-143 | Gives none exactly when no complaint has the id. Otherwise it gives the first stored complaint with that id, as `find` does. |
| ComplaintContext.ComplaintStore.GetComplaintsByUser | src/contexts/ComplaintContext.tsx:145-147 | Gives exactly the stored complaints owned by that user, as the order-keeping filter of the table. |
| ComplaintContext.ComplaintStore.TrackComplaint | src/contexts/ComplaintContext.tsx:149-162 | Gives the first-match lookup of the table, or rejects with `'Failed to track complaint'`. The table is unchanged and `loading` ends false. |
| AuthContext.Truthy | src/contexts/AuthContext.tsx:58 | `v \|\| undefined` is present exactly when v is present and not empty, and is then v. |
| AuthContext.ProfileToUser | src/contexts/AuthContext.tsx:53-63 | Ids, e-mail, names, role and timestamps are copied. A null or empty phone or department becomes absent, and a non-empty one is copied. |
| AuthContext.AfterProfileLoad | src/contexts/AuthContext.tsx:49-68 | A found profile row sets `user` to that row mapped to a `User`. A missing row or an error leaves `user` exactly as it was. |
| AuthContext.AfterProfileLoadIdempotent | src/contexts/AuthContext.tsx:49-68 | Loading the same profile read twice gives what loading it once gives. |
| AuthContext.LoginErrorMessage | src/contexts/AuthContext.tsx:83-84 | A login error carries the provider's message, or `'Login failed'` when that is empty. It is never empty. |
| AuthContext.IsDuplicateSignUpError | src/contexts/AuthContext.tsx:105-115 | The error code or any of four lower-cased phrases marks a duplicate. DuplicateTestSimplified and DuplicateDistinguishable state what it decides. |
| AuthContext.DuplicateTestSimplified | src/contexts/AuthContext.tsx:111-115 | The five-way duplicate test equals a three-way one, because `'already registered'` subsumes two of the phrases. |
| AuthContext.RegisterCatch | src/contexts/AuthContext.tsx:136-144 | The outer catch keeps the message unless it is empty, in which case it gives `'Registration failed'`. This holds on both branches. |
| AuthContext.SignUpErrorMessage | src/contexts/AuthContext.tsx:105-144 | A returned sign-up error rejects registration with the friendly duplicate message for a duplicate, and otherwise with the provider's own message when it is not empty. It is never empty. |
| AuthContext.MarkerStartsMessage | src/contexts/AuthContext.tsx:116 | The friendly duplicate message starts with `'This email is already registered'`. |
| AuthContext.MarkerSaysAlreadyRegistered | src/contexts/AuthContext.tsx:138 | That phrase contains `'already registered'`, at position 14. |
| AuthContext.AlreadyRegisteredIsLower | src/contexts/AuthContext.tsx:114 | `'already registered'` is unchanged by lower-casing. |
| AuthContext.DuplicateMessageSelfClassifies | src/contexts/AuthContext.tsx:107-138 | The friendly message would itself pass the duplicate test, and the outer catch recognises it. |
| AuthContext.DuplicateDistinguishable | src/contexts/AuthContext.tsx:105-144 | Registration rejects with the friendly duplicate message exactly when the provider's error is a duplicate. The two kinds of failure are told apart. |
| AuthContext.ThrownSignUpKeepsMessage | src/contexts/AuthContext.tsx:136-144 | A thrown sign-up error with a message rejects registration with that same message. |
| AuthContext.SignUpRequestOf | src/contexts/AuthContext.tsx:93-103 | Sign-up sends the form's e-mail and password, and names and phone as metadata. |
| AuthContext.RegisterOutcome | src/contexts/AuthContext.tsx:90-148 | Registration fails exactly on a returned or thrown sign-up error, or on a profile-update error after sign-up returned a user. A thrown error keeps its message. The failure message is never empty. |
| AuthContext.SessionManager.constructor | src/contexts/AuthContext.tsx:21-22 | `user` starts null and `loading` starts true. |
| AuthContext.SessionManager.LoadUserProfile | src/contexts/AuthContext.tsx:49-68 | `user` becomes the profile-load result, and nothing else changes. |
| AuthContext.SessionManager.InitialSession | src/contexts/AuthContext.tsx:26-32 | A session with a user loads the profile. `loading` ends false. |
| AuthContext.SessionManager.SessionChanged | src/contexts/AuthContext.tsx:37-44 | A session with a user loads the profile, and no session sets `user` null. `loading` ends false. |
| AuthContext.SessionManager.Login | src/contexts/AuthContext.tsx:70-88 | A sign-in error rejects with its message or `'Login failed'` and leaves `user` alone. Success loads the profile when a user came back. `loading` ends false. |
| AuthContext.SessionManager.Register | src/contexts/AuthContext.tsx:90-148 | See the note below the table. |
| AuthContext.SessionManager.Logout | src/contexts/AuthContext.tsx:150-157 | `user` becomes null only when sign-out does not throw. Otherwise it stays. |
| SubmitComplaintPage.AllComplaintChecks | src/pages/SubmitComplaintPage.tsx:18-24 | Lists every check of the schema. |
| SubmitComplaintPage.Failing | src/pages/SubmitComplaintPage.tsx:18-24 | Gives exactly the checks, among those given, that fail on the form. |
| SubmitComplaintPage.NoFailingIffPasses | src/pages/SubmitComplaintPage.tsx:18-24 | No check fails exactly when the category and priority are valid and the length minimums (10, 50, 5) hold. |
| SubmitComplaintPage.ValidateComplaint | src/pages/SubmitComplaintPage.tsx:18-24 | See the note below the table. |
| SubmitComplaintPage.ShortSubjectReported | src/pages/SubmitComplaintPage.tsx:20 | A subject shorter than 10 code units is always reported, with `'Subject must be at least 10 characters'`. |
| SubmitComplaintPage.DefaultPriorityIsMedium | src/pages/SubmitComplaintPage.tsx:43-45 | The default priority parses as `medium`. |
| SubmitComplaintPage.WithUploaded | src/pages/SubmitComplaintPage.tsx:64-67 | The result has at most five files, the old files first, then the new ones. A full list is unchanged. |
| SubmitComplaintPage.DropAtFromSpec | src/pages/SubmitComplaintPage.tsx:69-71 | Filtering on the index removes the element at that index, if it is in range. |
| SubmitComplaintPage.DropAtSpec | src/pages/SubmitComplaintPage.tsx:69-71 | `removeAttachment(i)` removes exactly element i and keeps the rest in order. An index out of range changes nothing. |
| SubmitComplaintPage.FileNames | src/pages/SubmitComplaintPage.tsx:81 | The file names, in order. |
| SubmitComplaintPage.Payload | src/pages/SubmitComplaintPage.tsx:78-82 | The form data, with status `pending` and the attachments' names. No assignee, resolution or feedback. |
| SubmitComplaintPage.SubmitPageState.constructor | src/pages/SubmitComplaintPage.tsx:32-46 | Empty banners, no files, and the default form. |
| SubmitComplaintPage.SubmitPageState.HandleFileUpload | src/pages/SubmitComplaintPage.tsx:64-67 | The list becomes the capped concatenation, and holds at most five files. |
| SubmitComplaintPage.SubmitPageState.RemoveAttachment | src/pages/SubmitComplaintPage.tsx:69-71 | The list loses exactly the element at the index, if it is in range. |
| SubmitComplaintPage.SubmitPageState.OnSubmit | src/pages/SubmitComplaintPage.tsx:73-95 | See the note below the table. |
| SubmitComplaintPage.SubmitPageState.HandleSubmit | src/pages/SubmitComplaintPage.tsx:124 | A rejected form shows its issues and reaches neither the handler nor the store. An accepted one is submitted with its parsed data, and the page ends as `onSubmit` leaves it: on success the store gains the complaint, the success banner names the new id, the error banner is empty, the form is reset and the files are cleared. On failure the error banner shows and the form and files stay. |
| RegisterPage.AllRegisterChecks | src/pages/RegisterPage.tsx:10-21 | Lists every check of the schema. |
| RegisterPage.RegisterFailing | src/pages/RegisterPage.tsx:10-21 | Gives exactly the checks, among those given, that fail on the form. |
| RegisterPage.NoRegisterFailingIffPasses | src/pages/RegisterPage.tsx:10-21 | No check fails exactly when every field rule and the password match hold. |
| RegisterPage.ValidateRegister | src/pages/RegisterPage.tsx:10-21 | See the note below the table. |
| RegisterPage.MismatchReportedOnConfirm | src/pages/RegisterPage.tsx:18-21 | A mismatched confirmation is always reported, under `confirmPassword`, with `"Passwords don't match"`. |
| RegisterPage.ToRegisterData | src/pages/RegisterPage.tsx:46-52 | Passes on the names, e-mail, phone and password unchanged. |
| RegisterPage.ToRegisterDataIgnoresConfirmation | src/pages/RegisterPage.tsx:46-52 | `confirmPassword` and `agreeTerms` never reach `register`. |
| RegisterPage.RegisterPageState.constructor | src/pages/RegisterPage.tsx:31-32 | No error, and not submitting. |
| RegisterPage.RegisterPageState.OnSubmit | src/pages/RegisterPage.tsx:42-59 | Success heads for `/dashboard`. Any failure, the duplicate included, shows `'Registration failed. Please try again.'`. `isSubmitting` ends false on every path. The session's `user` is the loaded profile exactly after a sign-up that returned a user and a successful profile write, and is otherwise unchanged. |
| RegisterPage.RegisterPageState.HandleSubmit | src/pages/RegisterPage.tsx:90 | A rejected form shows its issues and never reaches `register`. An accepted one navigates exactly when registration succeeds, shows `'Registration failed. Please try again.'` exactly when it fails, and leaves the session's `user` as `register` sets it. |
| AuthCallback.Dispatch | src/components/Auth/AuthCallback.tsx:21-40 | See the note below the table. |
| AuthCallback.ConfirmationWithoutCode | src/components/Auth/AuthCallback.tsx:25-40 | A confirmation without a code fails as `'Invalid callback type'`. |
| AuthCallback.Render | src/components/Auth/AuthCallback.tsx:22 | A template-literal slot: a missing parameter renders as `null`. Dispatch states the failure message it builds. |
| AuthCallback.ShownError | src/components/Auth/AuthCallback.tsx:43 | The shown message is the error's, or `'An error occurred during authentication'` when that is empty. It is never empty. |
| AuthCallback.CallbackView.constructor | src/components/Auth/AuthCallback.tsx:8-9 | No error, and verifying. |
| AuthCallback.ScreenOf | src/components/Auth/AuthCallback.tsx:52-79 | The spinner shows exactly while verifying. After that, the failure card shows exactly for a present, non-empty error, and it shows that error. |
| AuthCallback.CallbackView.HandleAuthCallback | src/components/Auth/AuthCallback.tsx:12-47 | See the note below the table. |
| ComplaintDetailsPage.StatusColor | src/pages/ComplaintDetailsPage.tsx:48-56 | The gray badge is given exactly for a string other than `pending`, `inProgress`, `resolved` and `escalated`. |
| ComplaintDetailsPage.StatusIcon | src/pages/ComplaintDetailsPage.tsx:58-66 | `Clock` is drawn exactly for a string other than `inProgress`, `resolved` and `escalated`. |
| ComplaintDetailsPage.PriorityColor | src/pages/ComplaintDetailsPage.tsx:68-76 | The gray badge is given exactly for a string other than `low`, `medium`, `high` and `urgent`. |
| ComplaintDetailsPage.StatusColorRule | src/pages/ComplaintDetailsPage.tsx:48-56 | The four open statuses get distinct, non-gray badges. `closed` and any other string get gray. |
| ComplaintDetailsPage.StatusIconRule | src/pages/ComplaintDetailsPage.tsx:58-66 | `Clock` is drawn exactly for pending and closed. `CheckCircle` is drawn exactly for resolved, and `AlertTriangle` exactly for escalated. |
| ComplaintDetailsPage.PriorityColorRule | src/pages/ComplaintDetailsPage.tsx:68-76 | The four priorities get distinct, non-gray badges. Any other string gets gray. |
| ComplaintDetailsPage.Shown | src/pages/ComplaintDetailsPage.tsx:24-26 | The not-found view shows exactly for a missing or empty route id or a failed lookup. Otherwise it shows the first stored complaint with that id. |
| ComplaintDetailsPage.Row | src/pages/ComplaintDetailsPage.tsx:160-167 | One timeline entry: the update, its status icon and badge, and a connector unless it is the last. TimelineOrder states the connector rule. |
| ComplaintDetailsPage.Timeline | src/pages/ComplaintDetailsPage.tsx:160-167 | There is one row per update. TimelineOrder and TimelineAppend state their order and connectors. |
| ComplaintDetailsPage.TimelineOrder | src/pages/ComplaintDetailsPage.tsx:160-167 | Rows follow the updates in order. Every row but the last has a connector. |
| ComplaintDetailsPage.TimelineAppend | src/pages/ComplaintDetailsPage.tsx:160-167 | A new update adds a last row without a connector and gives the old last row one. |
| ComplaintDetailsPage.Stars | src/pages/ComplaintDetailsPage.tsx:201-209 | Star k, for k from 1 to 5, is filled exactly when k is at most the rating. |
| ComplaintDetailsPage.FilledStarsCount | src/pages/ComplaintDetailsPage.tsx:201-213 | The number of filled stars is the rating clamped to 0..5. |
| ComplaintDetailsPage.SectionsOf | src/pages/ComplaintDetailsPage.tsx:140-275 | See the note below the table. |
| ComplaintDetailsPage.FeedbackNeedsBoth | src/pages/ComplaintDetailsPage.tsx:194 | Dropping the feedback, or reopening a resolved complaint, hides the feedback section. |

Notes on the rows marked "see the note":

- **ComplaintContext.SubmitThenFind.** On a table numbered by position:
  - the new id is previously unseen, and looking it up afterwards finds the
    new complaint;
  - that complaint has the submitted status and the owner passed in;
  - it has exactly one update, which carries the id, the status,
    `'Complaint submitted successfully'` and `'System'`.
- **ComplaintContext.ComplaintStore.SubmitComplaint.**
  - On success it appends exactly one complaint (the old entries unchanged),
    and returns its id, `CMP` plus the padded new length.
  - On failure the table is unchanged, and the call rejects with
    `'Failed to submit complaint'`.
  - Either way `loading` ends false.
- **AuthContext.SessionManager.Register.**
  - It sends the form's data.
  - It writes the phone and role `citizen` exactly after a sign-up that
    returned a user.
  - It rejects with the classified message on a returned sign-up error. It
    rejects with the caught message on a thrown sign-up error or a
    profile-update error. Either way `user` is untouched.
  - Otherwise it loads the profile.
  - `loading` ends false.
- **SubmitComplaintPage.ValidateComplaint.**
  - It accepts the form exactly when every check passes: the category is one
    of six, the subject has a `length` of at least 10, the description at
    least 50, the location at least 5, and the priority is one of four.
    `length` counts UTF-16 code units.
  - An accepted form gives the named category and priority and the form's
    texts.
  - A rejected form gives exactly the failing checks.
- **SubmitComplaintPage.SubmitPageState.OnSubmit.**
  - On success the store gains the complaint built from the form data and the
    files, and the success banner ends with the new id. The form is reset,
    the files are cleared, and the page heads for `/complaint/<id>`.
  - On failure only the error banner is set.
- **RegisterPage.ValidateRegister.**
  - It accepts the form exactly when all of these hold:
    - both names have a `length` of at least 2;
    - the e-mail passes the check;
    - the phone is absent or has a `length` of at least 10;
    - the password has a `length` of at least 6;
    - the terms are accepted;
    - the confirmation equals the password.
  - It otherwise gives exactly the failing checks, the refinement included.
- **AuthCallback.Dispatch.**
  - An `error` parameter fails with `"<error>: <description>"`, rendering an
    absent description as `null`.
  - Otherwise the code is exchanged exactly for an `email_confirmation` with
    a code.
  - A `recovery` goes to `/reset-password`, whatever the code.
  - Anything else fails with `'Invalid callback type'`.
- **AuthCallback.CallbackView.HandleAuthCallback.**
  - A failure sets the shown error, and nothing navigates.
  - If the exchange errors, that error is shown.
  - If the exchange succeeds, the page navigates to `/login` with the
    verified message.
  - A recovery goes to `/reset-password`.
  - `verifying` ends false.
  - On a fresh page the failure card shows exactly when nothing navigates.
- **ComplaintDetailsPage.SectionsOf.**
  - The attachments section shows exactly for a present, non-empty list.
  - The feedback section shows exactly when the status is `resolved` and
    feedback exists, and it shows that rating's stars.
  - The resolved row shows exactly when `resolvedAt` is set.
  - The assignee and department rows show exactly for non-empty values.

## Left out

- Identity-provider calls are not modelled. `getSession`, `onAuthStateChange`,
  `signInWithPassword`, `signUp`, the `profiles` update, `getCurrentUserProfile`,
  `signOut` and `exchangeCodeForSession` belong to an external service. Their
  results are method inputs.
- A rejection of `getSession` is not modelled. The code does not handle it.
- The awaited calls of the store are simulated with `setTimeout`, which never
  rejects, so the store's `catch` branches cannot run in the code as written.
  `backendFails = true` stands for a backend failure that this code cannot
  reach.
- The time taken by those delays is not modelled.
- `new URL(...).searchParams` is not modelled. The query parameters are given
  as options.
- `z.string().email()` is library code. It is the predicate parameter
  `isEmail`.
- The library's default messages for the two enum checks of the complaint
  schema are library text, so they are not modelled.
- The clock is not modelled. `new Date()` and `Date.now()` are the one value
  `now` per operation.
- Parsing of `new Date('2024-01-15')` is not modelled. The sample dates are
  written as their millisecond values. `new Date(profile.created_at)` is taken
  as a number already.
- Strings.Lower: lower-cases ASCII letters only. JavaScript `toLowerCase`
  covers all of Unicode, which the duplicate test's phrases do not need.
- Overlapping submits are not modelled. They are a stale-closure race between
  `complaints.length` and the `prev` updater, so submits are sequential here.
- `isSubmitting` being true during the awaited call is not modelled. No caller
  can observe that moment in a sequential model, so only its final value is
  stated.
- The delayed redirects after a submit and after a code exchange are not
  modelled as timers. They appear as the navigation the step leads to.
- File sizes are not modelled. Their display in megabytes is floating point.
- The placeholder text about a 10 MB limit is not modelled. The code never
  enforces it.
- Markup, Tailwind class composition, i18n `t()` lookups and date formatting
  are not modelled. Icons are tags.
- The role-gated `ProtectedRoute` is not part of this model. `src/App.tsx`
  only attaches roles to routes.
- `src/pages/NGODashboardPage.tsx` is not modelled. It holds hard-coded
  statistics and a tab selector.
- The `Department` and `Statistics` types are not modelled. No modelled code
  uses them.
- `ComplaintFeedback.rating` is a JavaScript number. It is modelled as an
  integer, so fractional and non-finite ratings are not modelled.
- A required key of `Partial<Complaint>` given as `undefined` is not modelled.
  The spread would copy `undefined` into a field that `Complaint` requires.
  `ComplaintPatch` lets only the optional keys be given as `undefined`.

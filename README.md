# AgriIQ mock-exam front end — a Dafny model of its rules

This project models the rules beneath the screens of the AgriIQ mock-exam
platform, a React front end over a document store and a phone/e-mail
identity provider. Students buy exams by submitting a UPI transaction id.
An administrator approves the payment. The student then sits a timed
multiple-choice test scored with negative marking. Administrators also
author exams and watch a dashboard.

Every document-store and identity-provider call is an input or an output
of the model: the snapshot that was read, whether a write succeeded, the
record that would be written. What remains is sequential and deterministic:

- `types.dfy` (module `Types`) holds the records and enums of `types.ts`.
  They are `Question` with exactly four options, `Exam`, `UserProfile` and
  `Purchase`, plus the enum string encodings and their decoders. An attempt
  is the record the exam window writes, `ExamSession.AttemptWrite`.
- `exam_session.dfy` (module `ExamSession`) models the exam window.
  - The class `ExamWindow` has the fields `exam`, `currentQ`, `answers` (a map),
    `marked` (a set), `timeLeft` and `submitting`.
  - The score is an exact `real`: +1 for a right answer, −1/3 for a wrong
    one, 0 for no answer. It is specified by the function `Score`, and the
    accumulation loop `TallyScore` is proved against it.
  - A submission is split into `BeginSubmit` (guard, raise `submitting`,
    build the attempt) and `EndSubmit` (the `finally`). This makes the
    in-flight window visible.
  - `Tick` is one run of the timer effect.
- `exam_authoring.dfy` (module `ExamAuthoring`) models the exam editor.
  - Questions are heap objects and their options an `array<string>`.
  - The edit handlers copy the question list shallowly and then assign into
    one object. The model proves that the list as it was before the edit
    reads the new value too.
- `store_front.dfy` (module `StoreFront`) models the student home page.
  - It covers the purchase lookups, the precedence of the three buttons, and
    the pending purchase that a payment claim writes.
- `phone_login.dfy` (module `PhoneLogin`) models the phone/OTP sign-in.
  - It covers the validation, the `+91` normalisation and the phone→otp
    steps. Each request is split into its start and its end, so `loading`
    is visible during the request.
  - It also covers the default profile that a first sign-in creates.
- `routing.dfy` (module `Routing`) models the route table of `App.tsx`.
  - The table is a pure function of the path, the signed-in flag and the
    role string.
  - It also covers the auth-state callback that sets the user and the role.
- `dashboard.dfy` (module `Dashboard`) models the admin dashboard.
  - It covers the revenue accumulation (a missing amount counts as 0), the
    counters, the chart data and the accent-bar class of a stat card.
- `text_util.dfy` and `wrappers.dfy` are helpers. They hold the JavaScript
  string operations used above (integer to text, `split`, first-occurrence
  `replace`) and an `Option` type.

Three behaviours of the exam session that a reader might not expect:

- There is no terminal "submitted" phase. `submitting` is cleared in a
  `finally`, so an exam can be submitted again after a write fails.
- A selected answer is not range-checked.
- Navigation stays in range only when `qCount` equals the length of the
  question list. That is a precondition of the property, not something the
  code ensures.

## Model

| member | source | states |
|---|---|---|
| `Types.ParseRole` | types.ts:2-5 | exactly "user" and "admin" decode, each back to the role whose stored string it is |
| `Types.ParseExamStatus` | types.ts:7-10 | exactly "active" and "archived" decode, each back to its status |
| `Types.ParsePaymentStatus` | types.ts:12-16 | exactly the three strings pending/approved/rejected are payment statuses, each decoding to its own value |
| `Types.EnumNamesRoundTrip` | types.ts:2-16 | every role, exam status and payment status decodes back from its stored string |
| `ExamSession.ScoreByCounts` | pages/user/ExamWindow.tsx:36-45 | the score equals (right answers) − (wrong answers)/3, and right + wrong + unanswered = number of questions |
| `ExamSession.Score` | pages/user/ExamWindow.tsx:36-45 | the score adds each question's contribution (+1 right, −1/3 wrong, 0 unanswered) in list order; for n questions it lies in [−n/3, n] |
| `ExamSession.ScoreUnanswered` | pages/user/ExamWindow.tsx:36-45 | when no question's id has an answer the score is exactly 0 |
| `ExamSession.ScoreAllRight` | pages/user/ExamWindow.tsx:36-45 | all questions answered correctly gives exactly one point per question |
| `ExamSession.TallyScore` | pages/user/ExamWindow.tsx:36-45 | the `forEach` loop adding 1 or subtracting 1/3 per answered question computes `Score` |
| `ExamSession.AttemptKey` | pages/user/ExamWindow.tsx:48 | the key splits into the rendered uid (an absent uid renders as "undefined"), one underscore, and exactly the exam id |
| `ExamSession.AttemptKeyPerExam` | pages/user/ExamWindow.tsx:48 | for one user, distinct exams get distinct attempt documents |
| `ExamSession.AttemptKeyDetermines` | pages/user/ExamWindow.tsx:48 | when uids contain no underscore, equal keys mean the same user and the same exam: one attempt document per user and exam, overwritten by a later submission |
| `ExamSession.AttemptFor` | pages/user/ExamWindow.tsx:48-55 | the written attempt is keyed by `AttemptKey` of this user and exam, carries the user, exam id, title and answers as given, and its score is `Score` of the answers, within [−n/3, n] |
| `ExamSession.JsRem60` | pages/user/ExamWindow.tsx:81 | JavaScript's `% 60`: the Euclidean remainder for t ≥ 0, a value in (−60, 0] congruent to t otherwise |
| `ExamSession.FormatTime` | pages/user/ExamWindow.tsx:79-83 | for t ≥ 0 the text is ⌊t/60⌋ in decimal, ":", then t mod 60 as exactly two digits; a negative count renders with a leading "-" |
| `ExamSession.FormatTimeRoundTrip` | pages/user/ExamWindow.tsx:79-83 | the `m:ss` text of any t ≥ 0 reads back as t, so distinct times display differently |
| `ExamSession.FormatTimeExamples` | pages/user/ExamWindow.tsx:79-83 | 65 seconds displays "1:05" and 600 seconds "10:00" |
| `ExamSession.Toggled` | pages/user/ExamWindow.tsx:85-90 | toggling flips membership of idx and keeps membership of every other index |
| `ExamSession.ToggleTwice` | pages/user/ExamWindow.tsx:85-90 | toggling the same index twice restores the marked set |
| `ExamSession.ExamWindow.constructor` | pages/user/ExamWindow.tsx:11-16 | a new window has no exam, question 0, no answers, no marks, countdown 0 and is not submitting |
| `ExamSession.ExamWindow.LoadExam` | pages/user/ExamWindow.tsx:18-29 | a found exam is loaded and the countdown starts at duration×60; a missing one changes nothing |
| `ExamSession.ExamWindow.BeginSubmit` | pages/user/ExamWindow.tsx:31-55 | nothing happens with no exam loaded or a submission in flight; otherwise `submitting` is raised and the attempt carries the answers and their `Score` |
| `ExamSession.ExamWindow.EndSubmit` | pages/user/ExamWindow.tsx:56-62 | `submitting` is cleared on success and on failure; only success leads home |
| `ExamSession.ExamWindow.Tick` | pages/user/ExamWindow.tsx:65-74 | with an exam loaded and the countdown ≤ 0 it submits and does not tick; otherwise the countdown drops by exactly 1; a loaded exam's countdown never goes below 0 |
| `ExamSession.ExamWindow.ToggleMark` | pages/user/ExamWindow.tsx:85-90 | the marked set becomes `Toggled(old marked, idx)` |
| `ExamSession.ExamWindow.SelectOption` | pages/user/ExamWindow.tsx:141 | the current question's id maps to the chosen index and every other entry is unchanged |
| `ExamSession.ExamWindow.Previous` | pages/user/ExamWindow.tsx:152-154 | moves back one question unless on question 0, and stays in range |
| `ExamSession.ExamWindow.Next` | pages/user/ExamWindow.tsx:159-160 | moves forward only while before qCount−1, and stays in range when qCount equals the list length |
| `ExamSession.ExamWindow.JumpTo` | pages/user/ExamWindow.tsx:173-176 | the palette sets the position to the chosen question, which is in range |
| `ExamAuthoring.SaveRequestFor` | pages/admin/AdminExamManager.tsx:40-46 | no write without a title; with one, an update of the form's id when it has one, otherwise an add, carrying the form |
| `ExamAuthoring.Draft` | pages/admin/AdminExamManager.tsx:43-45 | the serialised form carries every top-level field as it is, and each question as the value of its object at save time, position by position |
| `ExamAuthoring.FreezeAll` | pages/admin/AdminExamManager.tsx:43-45 | the written questions are the values of the question objects at save time, position by position |
| `ExamAuthoring.QuestionObj.Blank` | pages/admin/AdminExamManager.tsx:30-35 | a new question has the given id, empty text, four empty options and correct index 0 |
| `ExamAuthoring.ExamManager.constructor` | pages/admin/AdminExamManager.tsx:10-18 | the editor starts closed with the initial form (empty title and description, price 0, duration 60, count 0, active, no questions) |
| `ExamAuthoring.ExamManager.StartCreate` | pages/admin/AdminExamManager.tsx:60-63 | "Create Exam" resets the form to title "", no questions, qCount 0, price 0, duration 60, status active, and opens the editor |
| `ExamAuthoring.ExamManager.StartEdit` | pages/admin/AdminExamManager.tsx:201 | "Edit" makes the form the listed exam itself and opens the editor |
| `ExamAuthoring.ExamManager.Cancel` | pages/admin/AdminExamManager.tsx:172 | "Cancel" closes the editor |
| `ExamAuthoring.ExamManager.EditField` | pages/admin/AdminExamManager.tsx:77-113 | a title/price/duration/status edit replaces that field only |
| `ExamAuthoring.ExamManager.AddQuestion` | pages/admin/AdminExamManager.tsx:29-37 | exactly one blank question is appended, the existing ones are kept, qCount becomes (qCount or 0)+1, and qCount = list length is preserved |
| `ExamAuthoring.ExamManager.SetQuestionText` | pages/admin/AdminExamManager.tsx:132-136 | only that question's text changes, and the list as it was before the edit reads the new text too |
| `ExamAuthoring.ExamManager.SetCorrectIndex` | pages/admin/AdminExamManager.tsx:145-149 | only that question's correct index changes, to the chosen option 0..3 |
| `ExamAuthoring.ExamManager.SetOption` | pages/admin/AdminExamManager.tsx:156-160 | only that option slot of that question changes |
| `ExamAuthoring.ExamManager.Save` | pages/admin/AdminExamManager.tsx:39-52 | performs the `SaveRequestFor` decision on the form as it is; the editor closes only after a write that succeeded |
| `StoreFront.FirstMatch` | pages/user/UserHome.tsx:54-60 | `find` yields the first purchase of the exam in the given state, or none when no purchase matches |
| `StoreFront.IsPurchased` | pages/user/UserHome.tsx:54-56 | true exactly when some purchase of the exam is approved |
| `StoreFront.IsPending` | pages/user/UserHome.tsx:58-60 | true exactly when some purchase of the exam is pending |
| `StoreFront.ButtonFor` | pages/user/UserHome.tsx:95-110 | "Start Test" iff purchased, else "Payment Pending Approval" iff pending, else "Buy Now" |
| `StoreFront.ClaimFor` | pages/user/UserHome.tsx:36-44 | the claim is pending, at the exam's price, for this user and exam with the entered transaction id, and once stored it is a pending purchase of that exam |
| `StoreFront.ClaimLeavesBuyNow` | pages/user/UserHome.tsx:36-44 | once the pending purchase a claim writes is among the purchases, the exam no longer offers "Buy Now" |
| `StoreFront.PendingClaimGrantsNothing` | pages/user/UserHome.tsx:54-56 | adding a pending purchase never changes whether an exam counts as purchased |
| `StoreFront.UserHomePage.constructor` | pages/user/UserHome.tsx:8-12 | no exams or purchases, loading, no dialog, empty transaction id |
| `StoreFront.UserHomePage.FetchExams` | pages/user/UserHome.tsx:18-31 | the exams are replaced by the exam read and the purchases by the purchase read; a failed exam read keeps both lists, a failed purchase read keeps the purchases; loading ends either way |
| `StoreFront.UserHomePage.OpenPayment` | pages/user/UserHome.tsx:105 | "Buy Now" opens the dialog for that exam |
| `StoreFront.UserHomePage.ClosePayment` | pages/user/UserHome.tsx:137 | "Cancel" closes the dialog |
| `StoreFront.UserHomePage.EnterTransactionId` | pages/user/UserHome.tsx:133 | the typed text becomes the transaction id |
| `StoreFront.UserHomePage.SubmitPayment` | pages/user/UserHome.tsx:33-52 | nothing without a dialog and a non-empty id; otherwise a pending purchase of the dialog's exam with amount = price and the entered id; on success the dialog closes and the id is cleared |
| `TextUtil.Utf16Length` | pages/user/UserLogin.tsx:22 | JavaScript's `length` in UTF-16 code units: between the number of characters and twice it, equal to it for Basic-Multilingual-Plane text, and 0 only for the empty string |
| `PhoneLogin.PhoneAccepted` | pages/user/UserLogin.tsx:22 | a number of 10 or more characters is accepted, one of fewer than 5 never is, and for Basic-Multilingual-Plane text acceptance is exactly "at least 10 characters" |
| `PhoneLogin.OtpAccepted` | pages/user/UserLogin.tsx:40 | a code is never accepted without a pending confirmation, always with one and 6 or more characters, and for Basic-Multilingual-Plane text exactly when it has at least 6 characters |
| `PhoneLogin.NormalizePhone` | pages/user/UserLogin.tsx:28 | the result starts with "+": a number starting with "+" is kept, any other gets "+91" in front |
| `PhoneLogin.NormalizeIdempotent` | pages/user/UserLogin.tsx:28 | normalising twice equals normalising once, and the entered number is kept as a suffix |
| `PhoneLogin.NewProfile` | pages/user/UserLogin.tsx:49-57 | a first sign-in's profile has the account's uid and phone, name "Student", role "user" and is not blocked |
| `PhoneLogin.LoginPage.constructor` | pages/user/UserLogin.tsx:8-13 | empty phone and code, phone step, no confirmation, not loading, no error |
| `PhoneLogin.LoginPage.EnterPhone` | pages/user/UserLogin.tsx:93 | the typed text becomes the phone number |
| `PhoneLogin.LoginPage.EnterOtp` | pages/user/UserLogin.tsx:115 | the typed text becomes the code |
| `PhoneLogin.LoginPage.BeginSendOtp` | pages/user/UserLogin.tsx:21-29 | an empty number or one shorter than 10 sets "Invalid phone number" and sends nothing; otherwise loading starts, the error clears and the normalised number is sent |
| `PhoneLogin.LoginPage.EndSendOtp` | pages/user/UserLogin.tsx:29-36 | success stores the confirmation and moves to the code step; failure shows the provider's message; loading ends on both paths |
| `PhoneLogin.LoginPage.BeginVerifyOtp` | pages/user/UserLogin.tsx:39-42 | nothing when the code is empty, shorter than 6 or there is no confirmation; otherwise loading starts |
| `PhoneLogin.LoginPage.EndVerifyOtp` | pages/user/UserLogin.tsx:43-63 | a profile is written only when no user document exists, and then it is `NewProfile`; every failure sets "Invalid OTP code"; loading ends on every path |
| `PhoneLogin.LoginPage.ChangePhone` | pages/user/UserLogin.tsx:126 | "Change phone number" returns to the phone step |
| `Routing.MatchPath` | App.tsx:55-66 | each of the seven fixed patterns matches exactly its own path; `/exam/:id` matches exactly the paths `/exam/<id>` with one non-empty segment without "/"; the catch-all is taken exactly by the paths that match neither |
| `Routing.UnknownPathRedirectsHome` | App.tsx:66 | a path outside every pattern redirects to "/", whoever is signed in |
| `Routing.RouteElement` | App.tsx:53-67 | each page is shown exactly when its route matches and the visitor is entitled (sign-in pages: signed out; home: signed-in non-admin; exam window: signed-in "user"; admin pages: signed-in "admin"); otherwise signed-in at /login → "/", signed out at / → "/login", admin at / → "/admin", non-student at /exam/:id → "/login", signed-in at /admin/login → "/admin", non-admin at an admin page → "/admin/login", any other path → "/" |
| `Routing.AdminRedirectLoop` | App.tsx:60-61 | as written, a signed-in non-admin goes /admin → /admin/login → /admin … and no number of redirects reaches a page |
| `Routing.CorrectedRouteElement` | App.tsx:60 | the corrected table sends a signed-in non-admin at /admin/login to "/", agrees with the table as written everywhere else, and shows pages only to those entitled |
| `Routing.CorrectedRoutesSettle` | App.tsx:53-67 | under the corrected table every path, signed in or not, with any role, reaches a page within three redirects |
| `Routing.DerivedRole` | App.tsx:30 | the stored role, or "user" when the field is missing or empty; never empty |
| `Routing.AppShell.constructor` | App.tsx:20-22 | no user, no role, loading |
| `Routing.AppShell.OnAuthStateChanged` | App.tsx:25-36 | the user is recorded; signing out clears the role; a found document sets `DerivedRole`; a missing one keeps the old role; a failed read leaves the role and the loading flag as they were |
| `Routing.AppShell.View` | App.tsx:40-67 | a spinner exactly while loading, otherwise the route table as written for the current user and role; an admin page is shown only to a signed-in admin |
| `Routing.AppShell.CorrectedView` | App.tsx:40-67 | the same screen under the corrected table: it differs from `View` only at /admin/login for a signed-in non-admin, and every path then reaches a page within three redirects |
| `Dashboard.RevenueAppend` | pages/admin/AdminDashboard.tsx:22-23 | the revenue of two concatenated snapshots is the sum of their revenues |
| `Dashboard.Revenue` | pages/admin/AdminDashboard.tsx:22-23 | the amounts (`amount or 0`) added up in order; documents without amounts give 0, and non-negative amounts give a non-negative total |
| `Dashboard.TotalRevenue` | pages/admin/AdminDashboard.tsx:22-23 | the `forEach` loop adding `amount or 0` computes `Revenue` |
| `Dashboard.ChartData` | pages/admin/AdminDashboard.tsx:35-39 | exactly three bars, Users, Exams, Attempts in that order, with the matching counts |
| `Dashboard.AdminDashboard.constructor` | pages/admin/AdminDashboard.tsx:8-13 | all four stats start at 0 |
| `Dashboard.AdminDashboard.FetchStats` | pages/admin/AdminDashboard.tsx:16-31 | the counts become the snapshot sizes and the revenue the `Revenue` of the approved purchases; a failed read changes nothing |
| `Dashboard.KnownColorHasNoSpace` | pages/admin/AdminDashboard.tsx:82-87 | none of the four card colours contains a space |
| `Dashboard.SecondTokenOfClasses` | pages/admin/AdminDashboard.tsx:92 | the second space-separated token of `bg-<c>-50 text-<c>-600` is `text-<c>-600` |
| `Dashboard.TextToBg` | pages/admin/AdminDashboard.tsx:92 | replacing the first "text" of `text-<c>-600` by "bg" gives `bg-<c>-600` |
| `Dashboard.BarClass` | pages/admin/AdminDashboard.tsx:82-92 | a bar class exists exactly for the four known colours, and each colour c gets `bg-<c>-600`, e.g. blue gives "bg-blue-600" |

## Left out

- Document-store and identity-provider calls are inputs and outputs of the methods. These are the reads, writes and deletes, phone sign-in, code confirmation and the auth-state subscription. `services/firebase.ts` is not part of this model.
- Scheduling of `setInterval` and of the React effects is not modelled. `Tick` is one run of the timer effect. The effect also re-runs when the submit callback changes. After a failed write `submitting` is cleared, and a further `Tick` on the expired countdown submits again; the model shows this when `Tick` is called again. Only the automatic re-run of the effect, which makes that call, is left out.
- Floating point is not modelled. The score is an exact `real`, so neither the binary rounding of 1/3 nor `toFixed(2)` in the alert is captured.
- Id handling is simplified. The exam window takes the exam's `id` from the document's data, and the doc id is not merged in. The lists of exams and purchases spread `doc.data()` over `doc.id`, so a stored `id` field wins. The model takes every exam and purchase as already carrying its id.
- ExamSession.AttemptKey: an exam created with "Create Exam" is written without an `id` field, and the exam window reads the document's data only, so such an exam's `id` is undefined. The attempt write then carries `examId: undefined`. The store is set up without ignoring undefined fields, so it rejects the write, "Error submitting exam" is shown, and no attempt document is written. Every submission of such an exam fails until the exam is saved once through "Edit": the editor lists exams with their document id, and that update writes the listed `id` into the document. The model takes the exam id as present and does not capture this rejection. Whether a write succeeds is an input of `EndSubmit`.
- The `Attempt` interface of `types.ts` (lines 58-65) is represented by `ExamSession.AttemptWrite`. That is the document the submission actually writes: it is keyed by `<uid>_<examId>` and it carries `examTitle`. Its `userId` is optional in the model. An absent uid renders as "undefined" in the key, and the store rejects the `userId: undefined` field, so such a submission fails like the one above.
- Server timestamps are left out. These are `createdAt` of exams, purchases and user profiles, `updatedAt` of an edited exam, and `completedAt` of an attempt. `Types.UserProfile` and `Types.Purchase` therefore carry no `createdAt` field.
- Random question ids are a parameter of `AddQuestion`.
- `StoreFront.UserHomePage.SubmitPayment` and `ExamAuthoring.ExamManager.Save` both reload their lists after a successful write. That reload is a separate `FetchExams` call or store read, and it is not chained in the model.
- `alert`, `window.confirm`, `navigate`, the reCAPTCHA verifier and `window` globals are left out. The confirm dialog before "Finish" is left to the caller.
- Rendering is left out. This covers JSX, Tailwind classes other than the stat-card bar class, the question palette colours and the chart itself.
- Number inputs are modelled as already converted. A price is a `real` and a duration an `int`, so a fractional duration is not modelled.
- The `maxLength` of the OTP input and the `disabled` state of the send/verify buttons are not modelled.
- Route matching compares whole paths literally. `/exam/:id` takes exactly one non-empty segment. Trailing slashes, case-insensitive matching and URL decoding of the router are not modelled.
- The exam list of the editor and its delete button are left out. They are a store read and a store delete followed by a re-read.
- `pages/admin/AdminPayments.tsx`, `pages/admin/AdminUsers.tsx`, `pages/admin/AdminLogin.tsx` and `components/layout/Navbar.tsx` are not part of this model. Each is a single store or identity call around a screen.
- OnAuthStateChanged: it is atomic in the model. In the code, the user is set before the user document is awaited, so for a moment the new user is shown with the previous role.
- NewProfile: the account's phone number is a string. The provider may report none, and that case is not modelled.
- Dashboard.AdminDashboard.FetchStats: a purchase amount is an optional number. A non-numeric stored amount would be concatenated as text by `+=`, and that case is not modelled.

## Findings

| source | as written | input that shows it | evidently intended | confidence | as-written member | corrected member |
|---|---|---|---|---|---|---|
| App.tsx:60-61 | /admin sends anyone who is not a signed-in admin to /admin/login, and /admin/login sends anyone signed in to /admin | a signed-in account whose role is "user" (or has no user document) opening /admin | a signed-in non-admin at /admin/login is sent to "/" so that every path settles on a page | not executed; high that the two redirects alternate | `Routing.AdminRedirectLoop` | `Routing.CorrectedRoutesSettle` |

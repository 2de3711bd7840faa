# eTasmikPay core, modelled in Dafny

eTasmikPay is a demo front end for a tahfiz (Quran memorisation) school:
administrators, teachers (ustaz) and parents log in by choosing a role and
see role-specific dashboards, a payment screen and a settings screen, all
driven by fixed seed records. This project models the parts of that front
end that hold logic:

- the **teacher wallet** of the payment screen: total earnings, money paid
  out (COMPLETED withdrawals), money awaiting payout (PENDING withdrawals)
  and the withdrawable balance, all recomputed from the session and
  withdrawal records (`ledger.dfy`);
- the rest of the **payment screen**: its dispatch on the user's role, the
  admin's payment and payout tables, the parent's filters (own students,
  their sessions, paid history), and the screen's state: active tab,
  withdraw modal, payment modal with its selected method and processing
  flag (`payment_view.dfy`);
- the **application shell**: login by role, logout, navigation, and the
  routing from (user or none, view name) to what is shown (`app.dfy`);
- the **settings screen**: initial form state, the admin-only school
  configuration section and navigation entry, field-by-field edits of the
  school configuration, and the saving flag (`settings.dfy`);
- the records and the `filter`/`find` array operations (`records.dfy`).

The seed data (users, students, sessions, payments, withdrawals, demo
school configuration) comes from a mock-data module that is not part of this model, so it is a
parameter everywhere: sequences of datatypes, gathered for the payment
screen in `PaymentView.Store`. React state becomes a class per component
(`AppState`, `PaymentViewState`, `SettingsState`) whose methods are the
event handlers. What the app shell and the payment screen render is a
function of their state (`AppState.Render`, `PaymentViewState.Render`);
the settings screen's navigation list and form cards, `NavItems(role)` and
`Sections(role)`, depend only on the user's role. A simulated request's `setTimeout` completion is its own
method (`CompletePayment`, `CompleteSave`).

What the code does, and so what the model does:

- The code creates no withdrawal, checks no amount and has no
  approve/reject transition. `handleWithdraw` only closes the modal, and
  the approve/reject buttons have no handler. The status-change lemmas
  in `Ledger` state what the ledger recomputes when a record's status
  differs; they model no transition.
- `handlePaymentProcess` sets the processing flag unconditionally. A second
  submit while processing is accepted; there is no in-flight guard.
- Payment methods are FPX, QR, CARD and CASH, with FPX selected first.
- Logout does not clear the status message.
- The settings navigation list and sections depend on the role, but the
  view routing itself does not restrict any view by role.

## Model

| member | source | states |
|---|---|---|
| Ledger.TeacherLedger | views/PaymentView.tsx:33-42 | Earnings are the sum of fees over this teacher's sessions. Paid out is the sum over this teacher's COMPLETED withdrawals, pending the sum over PENDING ones; each is equal to an independent conditional sum. Balance + paid out + pending = earnings. |
| Ledger.FilteredEarnings | views/PaymentView.tsx:33-34 | The filter-then-reduce pipeline of the source computes the reference earnings sum. |
| Ledger.FilteredSessionCount | views/PaymentView.tsx:88 | The length of the filtered session list, `mySessions.length`, is the number of sessions taught by the teacher. |
| Ledger.FilteredStatusSum | views/PaymentView.tsx:35-41 | Filtering by teacher, then by status, then reducing gives the reference sum for that teacher and status. |
| Ledger.ForeignSessionIgnored | views/PaymentView.tsx:33-34 | Inserting another teacher's session anywhere in the records (or removing it) leaves all four figures unchanged. |
| Ledger.IgnoredWithdrawalIgnored | views/PaymentView.tsx:35-41 | Inserting or removing a withdrawal of another teacher, or a REJECTED one, leaves all four figures unchanged. |
| Ledger.RejectingPendingRaisesBalance | views/PaymentView.tsx:36-42 | If one of this teacher's PENDING withdrawals is REJECTED instead, the balance rises by its amount, pending falls by it, and paid out and earnings stay the same. |
| Ledger.CompletingPendingKeepsBalance | views/PaymentView.tsx:36-42 | If one of this teacher's PENDING withdrawals is COMPLETED instead, its amount moves from pending to paid out and the balance is unchanged. |
| Ledger.WalletExample | views/PaymentView.tsx:33-42 | Three RM 45 sessions, RM 50 completed and RM 20 pending give figures (135, 50, 20, 65); another teacher's records do not count; rejecting the pending one gives balance 85. |
| PaymentView.TeacherView | views/PaymentView.tsx:33-57 | The figures are the teacher ledger. The request button is disabled iff earnings do not exceed paid out + pending, that is iff balance <= 0. The amount field's default and max are the balance (line 155), positive when enabled. The session count ("Sesi Selesai", line 88) equals an independent count of the teacher's sessions. The two history lists hold each of the teacher's records exactly as often as the records do, and no other record. |
| PaymentView.MethodLabel | views/PaymentView.tsx:220 | The method column shows the method when present and non-empty, otherwise "-". |
| PaymentView.IncomeRows | views/PaymentView.tsx:215-223 | The admin sees one row per payment, in order, with its method label and a success badge iff PAID. |
| PaymentView.NameOf | views/PaymentView.tsx:232 | The teacher name is that of the first user with the withdrawal's teacher id; there is none iff no user has that id. |
| PaymentView.PayoutRows | views/PaymentView.tsx:231-254 | One row per withdrawal, in order, with the looked-up name; the pending styling and the reject/approve controls appear iff the status is PENDING. |
| PaymentView.ResolveControlsOnlyOnPending | views/PaymentView.tsx:249-252 | Any payout row shows resolve controls exactly when its withdrawal is PENDING, so COMPLETED and REJECTED requests offer none. |
| PaymentView.AdminView | views/PaymentView.tsx:201-261 | The income tab shows exactly the payment table of the records (`IncomeRows`) and the payouts tab exactly the payout list (`PayoutRows`), so the PENDING-only resolve controls are what the screen shows. |
| PaymentView.StudentsOf | views/PaymentView.tsx:267 | The parent's students are exactly the students whose parentId is the parent's id, each as often as in the records. |
| PaymentView.SessionsOfStudents | views/PaymentView.tsx:268 | A session is kept, as often as it occurs, iff some student of the given list has the session's studentId. |
| PaymentView.PaidHistory | views/PaymentView.tsx:308 | The history holds exactly the PAID payments, each as often as in the records. |
| PaymentView.PaidHistoryInOrder | views/PaymentView.tsx:308 | The history keeps the records' order: the paid fees of an earlier stretch of the records come before those of a later one. |
| PaymentView.ParentView | views/PaymentView.tsx:266-268 | The parent branch's students and history are exactly the parent's students and the PAID payments, with their multiplicities. |
| PaymentView.ParentSessionsExact | views/PaymentView.tsx:267-268 | The parent's sessions are exactly those whose student has the parent's id as parentId. |
| PaymentView.MethodTiles | views/PaymentView.tsx:359-386 | Of the four tiles FPX, QR, CARD, CASH, exactly one is highlighted: the selected method's. |
| PaymentView.PaymentViewState.constructor | views/PaymentView.tsx:12-18 | The screen starts on the income tab, with both modals closed, FPX selected and nothing processing. |
| PaymentView.PaymentViewState.Render | views/PaymentView.tsx:32-266 | USTAZ gets the teacher branch (line 32), ADMIN the admin branch (line 178), PARENT the parent branch (line 266); each branch's contents are that role's view of the records, the admin's for the active tab. The withdraw modal exists only in the teacher branch and the payment modal only in the parent branch, with the selected method's tile highlighted. |
| PaymentView.PaymentViewState.SelectTab | views/PaymentView.tsx:186-199 | A tab click sets the active tab and nothing else. |
| PaymentView.PaymentViewState.RequestWithdrawal | views/PaymentView.tsx:41-57 | A click on the teacher's request button opens the withdraw modal iff the teacher's ledger balance is positive (the button is disabled otherwise); no other state changes. |
| PaymentView.PaymentViewState.CancelWithdrawal | views/PaymentView.tsx:166 | Cancel closes the withdraw modal and nothing else. |
| PaymentView.PaymentViewState.SubmitWithdrawal | views/PaymentView.tsx:44-48 | Submitting the withdraw form only closes the modal; no record is created. |
| PaymentView.PaymentViewState.OpenPaymentModal | views/PaymentView.tsx:291 | "Pay now" opens the payment modal and keeps the selected method. |
| PaymentView.PaymentViewState.ClosePaymentModal | views/PaymentView.tsx:349 | The close button closes the modal; the processing flag is untouched. |
| PaymentView.PaymentViewState.SelectMethod | views/PaymentView.tsx:360 | A tile click makes that method the selected one and changes nothing else. |
| PaymentView.PaymentViewState.SubmitPayment | views/PaymentView.tsx:20-22 | Submit sets processing unconditionally and returns the method the completion message names. |
| PaymentView.PaymentViewState.CompletePayment | views/PaymentView.tsx:24-28 | Completion clears processing and closes the modal. |
| PaymentView.PaymentRound | views/PaymentView.tsx:16-28 | A full round (open, select, submit, complete) ends with the modal closed, nothing processing, and the announced method the one chosen. |
| App.AccountFor | src/app/App.tsx:22 | The account for a role is the first seed user with that role; there is none iff no seed user has it. |
| App.DashboardRoundTrip | src/app/App.tsx:37-47 | Each role has its own dashboard and each dashboard belongs to one role (the two maps are inverse). |
| App.RenderDashboard | src/app/App.tsx:37-48 | There is no dashboard without a user; with one, the dashboard of the user's role. |
| App.RenderContent | src/app/App.tsx:50-66 | There is no content without a user. With one, every view has content: 'settings' gives Settings, 'payment' gives Payment, 'dashboard' gives the role's dashboard, and any other name the placeholder. |
| App.AppState.constructor | src/app/App.tsx:17-19 | The app starts with no user, view 'dashboard' and an empty message. |
| App.AppState.Render | src/app/App.tsx:68-82 | With no user the landing page is shown with the status message, whatever the view. With a user, the layout gets that user and the current view name (line 76) and is shown around the routed content. |
| App.AppState.HandleLogin | src/app/App.tsx:21-30 | With an account for the role: that user, view 'dashboard', empty message. Without one: user and view unchanged and the "not yet provided" message. |
| App.AppState.HandleLogout | src/app/App.tsx:32-35 | From any state: no user and view 'dashboard'; the message is left as it was. |
| App.AppState.Navigate | src/app/App.tsx:77 | Navigation sets the view to the given name and changes nothing else. |
| App.AppState.PlaceholderBack | src/app/App.tsx:65 | The placeholder's back action sets the view to 'dashboard' and changes nothing else. |
| App.LoginRound | src/app/App.tsx:21-35 | From a fresh app, a failed login leaves the landing page with the message. A successful one shows the role's dashboard; an unknown view then shows the placeholder, whose back action returns to the dashboard, and logout lands again. |
| Settings.WithName | views/SettingsView.tsx:100 | Editing the name changes the name only; the rates are untouched. |
| Settings.WithPerSession | views/SettingsView.tsx:108-111 | Editing perSession changes that rate only; the name and the other two rates are untouched. |
| Settings.WithPerPage | views/SettingsView.tsx:117-120 | Editing perPage changes that rate only. |
| Settings.WithPackagePrice | views/SettingsView.tsx:126-129 | Editing packagePrice changes that rate only. |
| Settings.EditsOverwrite | views/SettingsView.tsx:100-129 | Re-entering a field's current value changes nothing; a later edit of a field overrides an earlier one. |
| Settings.EditsCommute | views/SettingsView.tsx:100-129 | Edits of different fields commute. |
| Settings.PresentKeepsTruthy | views/SettingsView.tsx:65 | `filter(Boolean)` keeps a label iff it is present (not `null`) and not the falsy empty string. |
| Settings.NavItems | views/SettingsView.tsx:65 | The nav list is 'Profil Peribadi', 'Keselamatan', 'Notifikasi', followed by 'Konfigurasi Madrasah' iff the role is ADMIN. |
| Settings.Sections | views/SettingsView.tsx:79-186 | The school-configuration card is rendered iff the role is ADMIN (line 94); the profile card comes first and notifications and security last. |
| Settings.SettingsState.constructor | views/SettingsView.tsx:12-18 | Name and email start as the user's, the configuration as the demo one, and loading is off. |
| Settings.SettingsState.SetName | views/SettingsView.tsx:82 | Typing in the name field changes the name only. |
| Settings.SettingsState.SetEmail | views/SettingsView.tsx:83 | Typing in the email field changes the email only. |
| Settings.SettingsState.EditSchoolName | views/SettingsView.tsx:100 | The configuration becomes the name edit of the old one; nothing else changes. |
| Settings.SettingsState.EditPerSession | views/SettingsView.tsx:108-111 | The configuration becomes the perSession edit of the old one. |
| Settings.SettingsState.EditPerPage | views/SettingsView.tsx:117-120 | The configuration becomes the perPage edit of the old one. |
| Settings.SettingsState.EditPackagePrice | views/SettingsView.tsx:126-129 | The configuration becomes the packagePrice edit of the old one. |
| Settings.SettingsState.SaveProfile | views/SettingsView.tsx:20-22 | Submitting the profile form sets loading; the form values are kept. |
| Settings.SettingsState.SaveSchool | views/SettingsView.tsx:30-32 | Submitting the school form sets loading; the form values are kept. |
| Settings.SettingsState.CompleteSave | views/SettingsView.tsx:24-36 | Completion of either save clears loading. |
| Settings.EditRateAndSave | views/SettingsView.tsx:113-136 | An admin who edits perPage and saves ends with only that rate changed from the demo configuration and loading off. |

## Left out

- Seed data (`MOCK_USERS`, `MOCK_STUDENTS`, `MOCK_SESSIONS`, `RECENT_PAYMENTS`, `MOCK_WITHDRAWALS`, `DEMO_SCHOOL_CONFIG`): its module is not part of this model, so the records are parameters.
- Amounts and rates are integers. JavaScript numbers are floating point, so fractional amounts, `NaN` and `toFixed(2)` display are not modelled.
- The `Number(e.target.value)` parsing of the rate fields is not modelled. The edit functions take the parsed value.
- `setTimeout` delays and `alert` messages are I/O. Each completion is a separate method, and the alert text is represented only by the method `SubmitPayment` returns.
- A submit while processing is not modelled as blocked: the source has no guard. The `Button` component, whose `isLoading` might block it, is not part of this model.
- Layout, styling, icons, the dashboards, `AppLayout`, the assistant widget and the landing page are not modelled. The landing page's only behaviour is calling `onSelectRole(role)`, which is the `role` argument of `HandleLogin`.
- `formatCurrency` and `formatDate` (src/lib/format.ts) rely on floating-point formatting and locale-dependent date formatting. They are not modelled.
- The record dates (`w.date`, `s.date`, `pay.date`, `p.date`) and the session topic (`s.surah`) are record fields that the screens only display unchanged. The records in `records.dfy` leave them out.
- "RM 15.00", "+ RM 120.00" and "RM 45.00" are hard-coded display constants. They are not modelled.
- The password and notification inputs are uncontrolled and have no logic. They are not modelled.
- Records.Filter: its contract states membership, the length bound and that every element passes the test; multiplicity is the lemma `FilterMultiplicity`. Order is stated only as `FilterAppend` (filtering a concatenation filters each part), which `PaidHistoryInOrder` applies to the paid history, not as a general subsequence property.
- View names are strings, not the four-name `AppView` type: navigation casts any string to `AppView`, and every name other than 'settings', 'payment' and 'dashboard' (such as 'users') routes to the placeholder.

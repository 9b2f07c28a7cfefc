# Samity savings society — a Dafny model of its state and rules

The system is a single-page web application for a small cooperative savings
society ("samity"). Its whole state is one dataset: the society's settings and six
collections (notices, activities, gallery items, members, transactions and
messages). The dataset sits next to two session cells, the logged-in member and
the administrator flag. The public pages read the dataset. The member's account
page and the contact form change it. The administrator's dashboard edits every
part of it. Each change replaces the whole dataset at once.

This project models that state and every rule that changes or reads it:

- `types.dfy` (module `Types`): the records as datatypes, their enumerations
  (activity status, media type, member performance, transaction type and
  status), and `Option` for the optional fields. It also gives JavaScript's
  `x || default` on optional strings (`OrDefault`), which falls back on an
  absent *or empty* value.
- `constants.dfy` (`Constants`): the seed dataset, field for field, with lemmas
  about it. The seed has distinct ids, every transaction is a paid deposit of a
  seed member, the administrator password is "admin123" and there are no
  messages. Long seed texts are written as concatenations of short pieces, which
  the verifier handles faster. The value is the same.
- `app.dfy` (`Session`): the login decision (`Login`) and the store class
  `App`. `App` holds the fields `data`, `currentUser` and `isAdmin`. Its
  methods are start-up, `UpdateData`, `HandleLogin` and `HandleLogout`, plus
  the guard on the `/admin` route.
- `admin_dashboard.dfy` (`Dashboard`): the dashboard handlers, each as a pure
  dataset transform paired with a method that builds the new collection and
  hands it to `UpdateData`. They cover saving members, notices, activities,
  gallery items and transactions, setting and clearing replies, deleting by
  id, and editing one settings field.
- `accounts.dfy` (`Accounts`): the account page. It covers screen selection,
  login feedback, the member's history, savings total and inbox, and the
  password change.
- `contact.dfy` (`Contact`): the public message form.
- `home.dfy` (`Home`) and `activities.dfy` (`Activities`): the read-only
  figures of the home page and the two activity columns.
- `seqs.dfy`, `text.dfy`, `ledger.dfy`: `filter` and a selective `map` over
  sequences, number-to-string and ASCII lower-casing, and the savings sum.

`Date.now()`, today's date, the formatted local date and `Math.random()` are
parameters here: `now`, `today`, `stamp` and `rnd`, where 1000 ≤ `rnd` ≤ 9999.
A record created at time `now` gets the decimal rendering of `now` as its id.

The code does not enforce the following, and the model follows the code:

- Member ids are not unique. A new member may reuse an existing id, and
  `Dashboard.DuplicateMemberIdAccepted` shows the list then holds that id
  twice. A random id can also collide. Uniqueness is therefore not an
  invariant of the model.
- The administrator flag and the member session are not mutually exclusive.
  An administrator login leaves `currentUser` as it was, and a member login
  leaves `isAdmin` as it was (`Session.App.HandleLogin`).
- The random member id is `floor(random * 9000) + 1000`, a value in
  1000..9999 with both ends included.
- Loading a stored dataset has no fallback for unreadable data. The model's
  start-up therefore takes the stored dataset, when one is present, as given.

## Model

| member | source | states |
|---|---|---|
| Types.OrDefault | App.tsx:45 | JavaScript's or-default on an optional string gives `d` exactly when the value is absent, empty or `d` itself, and otherwise the value |
| Constants.SeedMemberIds | constants.ts:35-36 | the seed has two members, with ids "1001" and "1002", which are distinct |
| Constants.SeedCollectionIdsDistinct | constants.ts:22-33 | the seed notice, activity and gallery ids are distinct within each collection |
| Constants.SeedTransactionsReferenceMembers | constants.ts:38-42 | every seed transaction is a paid deposit whose member id names a seed member |
| Constants.SeedAdminPassword | constants.ts:20 | the seed administrator password is "admin123" |
| Session.FindMember | App.tsx:52 | the result is absent exactly when no member accepts the id and secret; otherwise it is the first member in list order that accepts them |
| Session.Login | App.tsx:43-59 | administrator login exactly when the id lower-cases to "admin" and the password is the configured one, with "admin123" as the fallback; otherwise the first matching member; rejection exactly when neither holds |
| Session.App.constructor | App.tsx:21-33 | the stored dataset or else the seed, the stored member session, and the administrator flag exactly when the stored flag is "true" |
| Session.App.UpdateData | App.tsx:39-41 | the new dataset replaces the old one wholesale; the session cells are untouched |
| Session.App.HandleLogin | App.tsx:43-59 | returns `Login` of the current dataset; an administrator login sets the flag and keeps the member session; a member login sets the session and keeps the flag; a rejection changes nothing |
| Session.App.HandleLogout | App.tsx:61-66 | both session cells are cleared whatever they held; the dataset is kept |
| Session.App.Route | App.tsx:88-90 | the dashboard is shown exactly when the administrator flag is set; otherwise the route redirects to /accounts |
| Session.AdminPassword | App.tsx:45 | the administrator password is the configured one when it is present and non-empty, and "admin123" otherwise; it is never empty |
| Session.IsAdminId | App.tsx:45 | an id names the administrator exactly when it is "admin" in any mix of ASCII upper and lower case |
| Session.AdminFallback | App.tsx:45 | with no administrator password, or an empty one, "admin123" logs the administrator in |
| Session.AdminPrecedence | App.tsx:44-52 | the administrator check wins over a member whose id is "admin" and whose secret matches |
| Session.SeedMemberLogin | App.tsx:52-58 | in the seed, member 1001 logs in with password "111" or mobile "01711111111", and "wrong" is rejected |
| Dashboard.OverlayMember | views/Admin/AdminDashboard.tsx:56 | in the merge `{...m, ...form}` every field present in the form wins and every absent field keeps the member's value |
| Dashboard.OverlayNotice | views/Admin/AdminDashboard.tsx:71 | the same merge for a notice: present form fields win, absent ones keep the notice's value |
| Dashboard.OverlayActivity | views/Admin/AdminDashboard.tsx:91 | the same merge for an activity |
| Dashboard.OverlayGallery | views/Admin/AdminDashboard.tsx:111 | the same merge for a gallery item |
| Dashboard.OverlayMemberLaws | views/Admin/AdminDashboard.tsx:56 | the shallow merge leaves a record unchanged under an empty form, and merging twice is merging once |
| Dashboard.OverlayLaws | views/Admin/AdminDashboard.tsx:70-110 | the same two laws for notices, activities and gallery items |
| Dashboard.WithDefaults | views/Admin/AdminDashboard.tsx:46-52 | the form gets four defaults and keeps every other field: performance yellow unless given; join date today and password "123456" unless given and non-empty; savings 0 unless given |
| Dashboard.NewMember | views/Admin/AdminDashboard.tsx:46-58 | a new member keeps the form's name, mobile and image. Its id is the form's id, or else four digits reading back as the random draw. Performance, join date, password and savings are the form's when given (join date and password only when non-empty) and otherwise yellow, today, "123456" and 0 |
| Dashboard.MemberSaved | views/Admin/AdminDashboard.tsx:42-64 | a form without a name or mobile changes nothing; a new member is appended after all others; an edit overlays the defaulted form onto the records with the edited id only, keeping the length; only the member list changes |
| Dashboard.DuplicateMemberIdAccepted | views/Admin/AdminDashboard.tsx:58-59 | a new member whose form id is taken is appended anyway, leaving two members with one id |
| Dashboard.EditWithoutPasswordResetsIt | views/Admin/AdminDashboard.tsx:51-56 | an edit through a form with an absent or empty password field sets the edited member's password to "123456", since the defaults apply to edits too |
| Dashboard.NewNotice | views/Admin/AdminDashboard.tsx:72-77 | a new notice has the timestamp id, the form's title and content, the form's date or today, and no attachment |
| Dashboard.TimestampIdsDiffer | views/Admin/AdminDashboard.tsx:74 | notices created at different milliseconds get different ids |
| Dashboard.NoticeSaved | views/Admin/AdminDashboard.tsx:66-84 | needs a title and content; a new notice goes first and the old ones follow in order; an edit merges the form onto the matching ids only; only the notices change |
| Dashboard.NewActivity | views/Admin/AdminDashboard.tsx:92-97 | a new activity is planned unless a status is given, with description "" unless one is given |
| Dashboard.ActivitySaved | views/Admin/AdminDashboard.tsx:86-104 | needs a title; a new activity goes first; an edit merges onto the matching ids only; only the activities change |
| Dashboard.NewGalleryItem | views/Admin/AdminDashboard.tsx:112-118 | a new gallery item is always an image, titled "স্মৃতি" unless titled, with description "" unless one is given |
| Dashboard.GallerySaved | views/Admin/AdminDashboard.tsx:106-125 | needs an image URL; a new item goes first; an edit merges onto the matching ids only; only the gallery changes |
| Dashboard.NewTransaction | views/Admin/AdminDashboard.tsx:130-137 | a new transaction is always paid, is a deposit unless another type is chosen, is dated today unless a date is given, and has a non-zero amount |
| Dashboard.TransactionSaved | views/Admin/AdminDashboard.tsx:127-140 | a form without a member id, or with an amount that is missing or zero, changes nothing (negative amounts pass); otherwise the new transaction goes first |
| Dashboard.ReplySaved | views/Admin/AdminDashboard.tsx:142-150 | empty text changes nothing; otherwise the messages with the id get the reply and are marked read, so they are no longer pending; every other message is unchanged |
| Dashboard.ReplyCleared | views/Admin/AdminDashboard.tsx:502-504 | the messages with the id lose their reply, so they are pending again, and keep their read flag; every other message is unchanged |
| Dashboard.NewBadge | views/Admin/AdminDashboard.tsx:185 | the inbox tab's "New" badge is shown exactly when some message is unanswered |
| Dashboard.SeedShowsNoBadge | constants.ts:43 | the seed inbox is empty, so the "New" badge starts hidden |
| Dashboard.ReplyAgain | views/Admin/AdminDashboard.tsx:142-150 | setting a reply, clearing it and setting it again gives the same messages as setting it once |
| Dashboard.Deleted | views/Admin/AdminDashboard.tsx:312 | deleting by id on any of the six collections keeps the non-matching records in order and leaves no record with the id; no other collection changes |
| Dashboard.DeleteAbsentIsNoOp | views/Admin/AdminDashboard.tsx:370 | a delete changes the dataset exactly when some record of that collection has the id |
| Dashboard.DeleteIdempotent | views/Admin/AdminDashboard.tsx:418 | deleting the same id twice is deleting it once |
| Dashboard.FieldsDetermineSettings | types.ts:56-72 | the text fields and the monthly amount together determine the settings record |
| Dashboard.SettingsChanged | views/Admin/AdminDashboard.tsx:34-40 | the named settings field takes the new value and every other field keeps its own; nothing outside the settings changes |
| Dashboard.AdminPasswordChange | views/Admin/AdminDashboard.tsx:38 | after the administrator password is set to a non-empty value, that value logs the administrator in and "admin123" no longer does (unless it is the new value) |
| Dashboard.AdminPasswordEmptied | views/Admin/AdminDashboard.tsx:38 | emptying the administrator password field brings back "admin123" |
| Dashboard.SaveMember | views/Admin/AdminDashboard.tsx:42-64 | the handler stores exactly `MemberSaved` of the old dataset; the session cells are untouched |
| Dashboard.SaveNotice | views/Admin/AdminDashboard.tsx:66-84 | the handler stores exactly `NoticeSaved` of the old dataset; the session cells are untouched |
| Dashboard.SaveActivity | views/Admin/AdminDashboard.tsx:86-104 | the handler stores exactly `ActivitySaved` of the old dataset; the session cells are untouched |
| Dashboard.SaveGallery | views/Admin/AdminDashboard.tsx:106-125 | the handler stores exactly `GallerySaved` of the old dataset; the session cells are untouched |
| Dashboard.SaveTransaction | views/Admin/AdminDashboard.tsx:127-140 | the handler stores exactly `TransactionSaved` of the old dataset; the session cells are untouched |
| Dashboard.SaveReply | views/Admin/AdminDashboard.tsx:142-150 | the handler stores exactly `ReplySaved` of the old dataset; the session cells are untouched |
| Dashboard.ClearReply | views/Admin/AdminDashboard.tsx:502-504 | the handler stores exactly `ReplyCleared` of the old dataset; the session cells are untouched |
| Dashboard.Delete | views/Admin/AdminDashboard.tsx:519 | each delete button stores exactly `Deleted` of the old dataset; the session cells are untouched |
| Dashboard.ChangeSetting | views/Admin/AdminDashboard.tsx:34-40 | the handler stores exactly `SettingsChanged` of the old dataset; the session cells are untouched |
| Accounts.AccountsScreen | views/User/Accounts.tsx:52-72 | the administrator landing shows exactly when the flag is set without a member session; the login form shows exactly when neither is set; the member's dashboard shows whenever a member is logged in |
| Accounts.LoginSubmitted | views/User/Accounts.tsx:27-38 | only an administrator login navigates to /admin; the error is empty exactly on success, and a failure always shows the same message |
| Accounts.HandleLoginSubmit | views/User/Accounts.tsx:27-38 | the feedback is `LoginSubmitted` of the store's login decision; the dataset is unchanged; an administrator login sets the flag and keeps the member session, a member login sets the session and keeps the flag, and a rejection changes neither |
| Accounts.UserTransactions | views/User/Accounts.tsx:122 | the history holds exactly the member's transactions, in list order, each as often as in the list |
| Accounts.TotalUserSavings | views/User/Accounts.tsx:122-125 | the displayed total, filter then reduce, equals the one-pass sum of the amounts of the member's paid deposits |
| Accounts.PaidMemberSumIsMemberSavings | views/User/Accounts.tsx:122-125 | summing the member's paid deposits after filtering equals the one-pass reference sum |
| Accounts.SavingsAfterPrepend | views/User/Accounts.tsx:122-125 | a new transaction changes a member's total only if it is that member's paid deposit, and then by its amount |
| Accounts.SavingsAfterRecordedPayment | views/User/Accounts.tsx:123-125 | a deposit recorded on the dashboard raises its member's total by the amount and leaves every other member's total unchanged |
| Accounts.SeedSavings | views/User/Accounts.tsx:123-125 | in the seed, member 1001 has saved 1000 and member 1002 has saved 500 |
| Accounts.UserMessages | views/User/Accounts.tsx:127 | the inbox holds exactly the messages sent from the member's mobile number, in list order |
| Accounts.InboxLineOf | views/User/Accounts.tsx:251-257 | an inbox message shows as waiting exactly when it has no reply; otherwise it shows the reply |
| Accounts.PasswordChanged | views/User/Accounts.tsx:40-46 | without a member session or with an empty password nothing changes; otherwise only the password of the members with the session's id changes, and no old password is checked |
| Accounts.HandlePasswordChange | views/User/Accounts.tsx:40-50 | the handler stores exactly `PasswordChanged` of the old dataset and the session; the session cells keep their old values |
| Accounts.NewPasswordLogsIn | views/User/Accounts.tsx:43-46 | after a password change, the member logs in with the new password and gets a record with that id and password |
| Accounts.MobileSurvivesPasswordChange | App.tsx:52 | the mobile number keeps working as a secret after any password change |
| Contact.NewMessage | views/User/Contact.tsx:21-28 | a new message copies the name, mobile and text, is unread, and has no reply and no member link |
| Contact.MessageSubmitted | views/User/Contact.tsx:16-33 | with any field empty nothing changes; otherwise the message goes first and the old ones follow in order; nothing else changes |
| Contact.HandleSubmit | views/User/Contact.tsx:16-44 | the handler stores exactly `MessageSubmitted` of the old dataset; the session cells are untouched |
| Contact.SubmittedMessageReachesInbox | views/User/Contact.tsx:30-33 | a submitted message heads the inbox of that mobile number, shows as waiting, and lights the dashboard's "New" badge |
| Home.SocietySavings | views/User/Home.tsx:9-11 | the society total, filter then reduce, equals the one-pass sum of the amounts of all paid deposits |
| Home.PaidSumIsPaidSavingsSum | views/User/Home.tsx:9-11 | summing the paid deposits after filtering equals the one-pass reference sum |
| Home.SocietySavingsAppend | views/User/Home.tsx:9-11 | the society total of a concatenation is the sum of the totals |
| Home.SocietySavingsAfterPrepend | views/User/Home.tsx:9-11 | a paid deposit raises the society total by its amount; a withdrawal, penalty or pending transaction leaves it unchanged |
| Home.SeedSocietySavings | views/User/Home.tsx:9-11 | in the seed the society total is 1500, the sum of the two members' totals |
| Home.MemberCount | views/User/Home.tsx:40 | the count shown is the number of member records, duplicates included, and is zero only for an empty list |
| Home.MemberCountChanges | views/User/Home.tsx:40 | adding a member raises the count by one; deleting an id lowers it when a member has the id, and otherwise leaves it alone |
| Home.Headline | views/User/Home.tsx:57 | the headline is the first notice's title, or the placeholder when there are no notices |
| Home.NewNoticeIsHeadline | views/User/Home.tsx:57 | a notice just created on the dashboard becomes the headline |
| Home.AboutTeaser | views/User/Home.tsx:69 | the teaser is the prefix of the about text of length min(200, its length) |
| Activities.InProgressOrDone | views/User/Activities.tsx:16 | the left column holds exactly the activities that are not planned, in list order, each as often as in the list |
| Activities.PlannedList | views/User/Activities.tsx:37 | the right column holds exactly the planned activities, in list order, each as often as in the list |
| Activities.ColumnsPartition | views/User/Activities.tsx:16-37 | every activity is in exactly one column; the lengths add up to the total |
| Activities.ShowNoPlans | views/User/Activities.tsx:43-47 | the "no plans" placeholder shows exactly when no activity is planned |
| Activities.StatusLabel | views/User/Activities.tsx:21-23 | the badge reads "completed" for a completed activity and "ongoing" for any other |
| Activities.NewActivityIsPlanned | views/Admin/AdminDashboard.tsx:96 | an activity created without a status heads the planned column, removes the placeholder and leaves the left column unchanged |
| Seqs.Filter | views/User/Activities.tsx:16 | `filter` returns a subsequence that holds exactly the selected elements, each as often as in the input |
| Seqs.MapWhere | views/Admin/AdminDashboard.tsx:56 | the conditional `map`: same length, the selected elements transformed, every other element left in its place |
| Seqs.FilterPartition | views/User/Activities.tsx:16-37 | filtering by a test and by its negation splits the input: the lengths and the contents add up |
| Ledger.Reduce | views/User/Home.tsx:11 | `reduce((sum, t) => sum + t.amount, acc)` ends at the start value plus the sum of all amounts |
| Text.NatToString | views/Admin/AdminDashboard.tsx:74 | `toString` of a number gives a non-empty string of decimal digits whose first digit is '0' exactly when the number is 0, so no leading zeros |
| Text.ToLowerAscii | App.tsx:45 | lower-casing keeps the length, maps each ASCII capital to its small letter and leaves every other character alone |
| Text.ParseNatToString | views/Admin/AdminDashboard.tsx:58 | the decimal id of a number reads back as that number |
| Text.FourDigits | views/Admin/AdminDashboard.tsx:58 | every random member id in 1000..9999 has exactly four digits |

## Left out

- Browser storage and JSON: reading and writing the three stored cells is not modelled. Start-up receives what was stored, already parsed. The write-back after each change is left out, because it is I/O.
- Rendering: markup, styling, icons, navigation bar, footer, and the purely presentational member, notice-board, gallery and about pages.
- Clock, randomness and locale: `Date.now()`, `new Date()`, `Math.random()`, `toLocaleString('bn-BD')` and `formatMonthYear` are parameters or left out.
- `setTimeout` clearing of status texts, and the form and UI state: password-visibility toggles, the active tab, form resets, and the status texts after a password change or a message submission.
- Dashboard.SettingsChanged: the monthly amount arrives as an already parsed integer. `Number(value)` and its NaN and fractional results are not modelled.
- Dashboard.TransactionSaved: amounts are integers. A string amount passed through `Number`, fractional amounts and NaN are not modelled.
- Session.IsAdminId: lower-casing covers ASCII letters only. Unicode case mapping is not modelled.
- Home.AboutTeaser: the text counts characters, not UTF-16 code units. The "..." the page always appends after the teaser is not part of the model.
- Contact.MessageSubmitted: the message list is always present in the model, so the `|| []` guard for a missing list has nothing to do.
- Accounts.HandlePasswordChange: the session's copy of the member keeps its old password, as in the code. The model states this (the session cells are unchanged) and does not refresh the copy.
- The dashboard's `editingItem` bookkeeping is reduced to "an edited id is present or absent".
- Invariants the code does not maintain are not proved as invariants: member-id uniqueness, the link from a transaction's member id to a member, and exclusivity of the administrator and member sessions.

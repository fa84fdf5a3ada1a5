# Expense tracker ledger, credentials and client state — a Dafny model

This project models the logic of a personal finance tracker. A REST server keeps a per-user ledger of income and expense transactions and a store of user credentials. A browser client keeps a session token, an add-transaction form and an editable transaction list. The model covers:

- **Ledger** (`ledger.dfy`, module `Ledger`). The guard chain of `addTransaction`:
  - required fields, where an amount of 0 counts as missing;
  - the sign of the amount against the type;
  - the five categories;
  - no future date.

  The collection is a class `LedgerStore` whose methods add, list (newest first), get, update and delete records. Every lookup is scoped by both `_id` and owner. There is also the `getSummary` fold. Amounts are integers (minor units). Dates are integer timestamps. "Now" and the caller's user id are parameters.
- **User schema** (`user_model.dfy`, module `UserModel`). The setters that trim the name and lowercase the email, the `required` validators, the unique email index, `findOne({ email })`, and the invariant of the users collection.
- **Credential endpoints** (`auth.dfy`, module `Auth`):
  - signup: check for a duplicate (the query casts the email through the schema's lowercase setter), hash, save;
  - login: look the email up lowercased, with one generic 401 for an unknown email and for a wrong password.

  bcrypt's hash and compare are function parameters. The drawn salt is a parameter. A token is the user id it is signed for.
- **Client** (`client_amount.dfy`, `transaction_form.dfy`, `transactions_page.dfy`, `auth_context.dfy`):
  - `Number(...)` as a partial parser, `toString`, and the sign rule shared by both forms;
  - the add form's state, checks, payload and reset;
  - the list page's delete and edit handlers;
  - the session's token and localStorage state machine.
- **Scenarios** (`scenarios.dfy`). End-to-end runs: signup then login; one expense; income then expense; cross-user read then delete then read.

`text.dfy` (trim and lowercase), `seqs.dfy` (filter) and `wrappers.dfy` (Option, Result) are shared helpers.

Where the code departs from what a reader might expect, the model follows the code:
- `User.findOne({ email })` casts the filter through the schema's setters, so the lookup uses the lowercased email. A signup with any letter case of a stored email is answered 400.
- `updateTransaction` re-runs no validation. It passes the request body through, so it can also overwrite `userId`: `Ledger.ApplyPatch` has a `userId` field for this.
- A type other than "income" or "expense" passes the sign guards.

## Model

| member | source | states |
|---|---|---|
| `Ledger.ErrorMessage` | server/src/controllers/transactionController.js:12-29 | every guard has a non-empty message |
| `Ledger.ErrorMessagesDistinct` | server/src/controllers/transactionController.js:12-29 | two guards give the same message iff they are the same guard, so a client can tell them apart |
| `Ledger.AddStatus` | server/src/controllers/transactionController.js:12-42 | status 201 iff the record was created; 400 iff the request was rejected by a guard |
| `Ledger.CheckAdd` | server/src/controllers/transactionController.js:11-30 | passes exactly when the request is acceptable (all fields truthy, amount 0 being falsy; expense < 0, income > 0; category one of the five; date <= now); otherwise names the first failing guard, in source order |
| `Ledger.LedgerStore.Add` | server/src/controllers/transactionController.js:6-42 | a rejected request leaves the store unchanged and returns the guard's error; an accepted one appends exactly one record with a fresh id, the caller as owner and the given fields, and returns it (201); the id counter advances by one exactly when a record is created |
| `Ledger.SortByDateDesc` | server/src/controllers/transactionController.js:85 | result ordered by date, newest first, and a permutation of its input |
| `Ledger.LedgerStore.List` | server/src/controllers/transactionController.js:83-90 | returns only the caller's records, all of them, newest first |
| `Ledger.FindTarget` | server/src/controllers/transactionController.js:97 | finds the first record matching both `_id` and `userId`, or reports that none matches |
| `Ledger.LedgerStore.GetById` | server/src/controllers/transactionController.js:93-107 | a record is returned iff one matches both id and caller, and then it is that record; otherwise 404 |
| `Ledger.ApplyPatch` | server/src/controllers/transactionController.js:114-118 | each field present in the body overwrites the stored one (owner included); absent fields and the id are kept |
| `Ledger.LedgerStore.Update` | server/src/controllers/transactionController.js:110-128 | 404 with the store unchanged iff no record matches id and caller; otherwise only that record is patched and the updated record is returned |
| `Ledger.LedgerStore.Delete` | server/src/controllers/transactionController.js:131-148 | succeeds iff a record matches id and caller; removes exactly that record, keeping the others in order; otherwise nothing changes |
| `Ledger.SummaryOf` | server/src/controllers/transactionController.js:53-69 | balance is income + expense; totalTransactions is the number of records |
| `Ledger.LedgerStore.Summarize` | server/src/controllers/transactionController.js:49-71 | the summary is computed over the caller's records only |
| `Ledger.SumAmounts` | server/src/controllers/transactionController.js:55-59 | one record sums to its amount; records all <= 0 sum to <= 0, records all >= 0 sum to >= 0 |
| `Ledger.SumAmountsAppend` | server/src/controllers/transactionController.js:53-59 | the reduce over amounts is additive over concatenation |
| `Ledger.SummaryAppend` | server/src/controllers/transactionController.js:53-69 | income, expense and count of two runs of records add up field-wise |
| `Ledger.OwnedAfterInsert` | server/src/controllers/transactionController.js:51 | after one insert, the caller's records are the old ones plus the new one if it is theirs |
| `Ledger.SummaryAfterInsert` | server/src/controllers/transactionController.js:51-69 | another user's record leaves the caller's summary unchanged; the caller's own record adds its amount to income or expense by type and 1 to the count |
| `Ledger.SummarySigns` | server/src/controllers/transactionController.js:53-61 | over records that keep the sign convention, expense <= 0 <= income |
| `Ledger.OtherTypesPassSignGuards` | server/src/controllers/transactionController.js:15-21 | a type that is neither "income" nor "expense" is accepted whatever the sign of its amount |
| `Ledger.UpdateSkipsValidation` | server/src/controllers/transactionController.js:114-118 | an update can store an expense with a positive amount |
| `Text.Trim` | server/src/models/User.js:7 | the result is a slice of the input with only white space cut off at its two ends, and has no white space at either end; an already trimmed string is unchanged |
| `Text.Lower` | server/src/models/User.js:13 | same length, letter by letter; the result is lower case and a lower-case string is unchanged |
| `UserModel.NewUser` | server/src/models/User.js:4-14 | a built user's name is `Trim(name)` and its email `Lower(email)`; it keeps the given id and password |
| `UserModel.RequiredAfterSetters` | server/src/models/User.js:4-18 | a schema-built user has every required field iff the trimmed name, the email and the password are non-empty |
| `UserModel.Save` | server/src/models/User.js:4-18 | save fails validation iff a required field is empty; it succeeds iff the fields are present and the email is not taken, and then appends the user |
| `UserModel.SaveKeepsInvariant` | server/src/models/User.js:12 | a saved schema-built user keeps the collection invariant: well-formed users, unique emails, unique ids |
| `UserModel.FindByEmail` | server/src/controllers/authController.js:21 | `None` iff no user has exactly this email; otherwise a stored user with this email, the only one under unique emails |
| `Auth.Public` | server/src/controllers/authController.js:41-45 | the reply's user is the stored user's id, name and email, and nothing else |
| `Auth.GenerateToken` | server/src/controllers/authController.js:7-11 | the token's subject is the given user id |
| `Auth.SignupStatus` | server/src/controllers/authController.js:23-49 | 201 iff registered, 400 iff the email already exists, 500 iff the save failed |
| `Auth.SignupMessage` | server/src/controllers/authController.js:23-49 | every answer has a message; "User already exists" exactly for the duplicate and "Server error" exactly for the failure |
| `Auth.SignupResult` | server/src/controllers/authController.js:16-50 | 400 iff a user with the lowercased email exists; 500 iff not, and the trimmed name, the email or the hash is empty; otherwise 201 with a token for the new id and `{id, name, email}`, and exactly one user stored with the hashed password; on any failure the store is unchanged |
| `Auth.CredentialStore.Signup` | server/src/controllers/authController.js:16-51 | the step-by-step signup computes `SignupResult` and keeps the collection invariant |
| `Auth.SignupKeepsInvariant` | server/src/controllers/authController.js:31-36 | whatever the body, no two stored users share an email afterwards |
| `Auth.SignupCaseVariantRejected` | server/src/controllers/authController.js:21-24 | after a successful signup, a second signup with any letter case of that email is answered 400 and adds no user |
| `Auth.LoginStatus` | server/src/controllers/authController.js:63-80 | 200 iff logged in, 401 iff the credentials are rejected, 500 iff the handler failed |
| `Auth.LoginMessage` | server/src/controllers/authController.js:63-80 | every answer has a message; "Invalid email or password" exactly for rejected credentials and "Server error" exactly for the failure |
| `Auth.LoginRejectsAlike` | server/src/controllers/authController.js:61-70 | under unique emails, a login is 401 "Invalid email or password" iff the lower-cased email is unknown or its stored hash rejects the password, so the two failures give the same answer |
| `Auth.LoginAsWritten` | server/src/controllers/authController.js:56-81 | 401 iff no user has the lower-cased email; any found user ends in 500; no login succeeds |
| `Auth.Login` | server/src/controllers/authController.js:61-77 | never 500; unknown email and wrong password both give the same 401; success carries a token whose subject is the found user, plus that user's `{id, name, email}` |
| `Auth.SignupThenLogin` | server/src/controllers/authController.js:61-77 | after a successful signup, login with the same password and any-case email returns the new user's token |
| `Auth.SignupThenLoginAsWritten` | server/src/controllers/authController.js:67 | after a successful signup, the login as written answers 500 |
| `ClientAmount.ParseNumber` | client/src/components/TransactionForm.jsx:168-172 | blank text reads as 0; the result is NaN iff the trimmed text is non-blank and not an optionally signed digit string; otherwise it is that numeral's value |
| `ClientAmount.Show` | client/src/pages/Transactions.jsx:89 | non-empty decimal digits with no leading zero |
| `ClientAmount.DigitsValueShow` | client/src/pages/Transactions.jsx:89 | the digits printed for n denote n |
| `ClientAmount.ParseShow` | client/src/pages/Transactions.jsx:89 | reading a printed magnitude back gives the magnitude |
| `ClientAmount.SignedAmount` | client/src/components/TransactionForm.jsx:173-174 | the magnitude is kept; an expense is made <= 0, anything else >= 0 |
| `ClientAmount.SignedAmountIdempotent` | client/src/components/TransactionForm.jsx:173-174 | applying the sign rule twice gives the same result |
| `ClientAmount.SignedAmountOfAbs` | client/src/pages/Transactions.jsx:114 | for an amount whose sign follows its type, the rule applied to its magnitude gives it back |
| `TransactionForm.WithField` | client/src/components/TransactionForm.jsx:154-157 | the named field takes the value; every other field keeps its value |
| `TransactionForm.Component.constructor` | client/src/components/TransactionForm.jsx:141-149 | the form starts blank (type "expense", date today) |
| `TransactionForm.Component.HandleChange` | client/src/components/TransactionForm.jsx:154-157 | the form becomes the old form with only the named field changed |
| `TransactionForm.PreparePayload` | client/src/components/TransactionForm.jsx:163-182 | no payload iff amount, type or category is empty (date unchecked) or the amount is not a number; otherwise the amount has the parsed magnitude and the type's sign, the type is lowercased, the note is kept and an empty date is omitted |
| `TransactionForm.Component.HandleSubmit` | client/src/components/TransactionForm.jsx:159-210 | sends exactly the prepared payload; the form resets only when a request was sent and accepted, and stays otherwise; `onAdded` runs only then, and only if provided |
| `TransactionsPage.Take10` | client/src/pages/Transactions.jsx:93 | the first ten characters, or the whole text if shorter |
| `TransactionsPage.EditFormFor` | client/src/pages/Transactions.jsx:86-95 | the edit form has exactly the five keys; the amount is the printed magnitude; note "" when absent; date cut to ten characters |
| `TransactionsPage.EditFormAmountReadsBack` | client/src/pages/Transactions.jsx:89 | the amount text of an opened edit reads back, through `Number`, as the magnitude of the amount |
| `TransactionsPage.WithKey` | client/src/pages/Transactions.jsx:102-105 | the named key takes the value; every other key keeps its presence and value |
| `TransactionsPage.EditPayloadOf` | client/src/pages/Transactions.jsx:109-124 | no request iff the amount is missing or not a number; otherwise the amount has the parsed magnitude and the sign of the type; type, category and note are passed on; an empty date is omitted |
| `TransactionsPage.EditRoundTrip` | client/src/pages/Transactions.jsx:86-124 | opening and saving an edit unchanged sends back the original amount, type, category and note, for a transaction whose sign follows its type |
| `TransactionsPage.RemoveById` | client/src/pages/Transactions.jsx:75 | no remaining entry has the deleted id; every entry with another id is kept |
| `TransactionsPage.RemoveByIdOne` | client/src/pages/Transactions.jsx:75 | a single entry is kept iff its id differs from the deleted one |
| `TransactionsPage.RemoveAbsentId` | client/src/pages/Transactions.jsx:75 | deleting an id that no entry carries leaves the list unchanged |
| `TransactionsPage.RemoveByIdAppend` | client/src/pages/Transactions.jsx:75 | the filter works run by run, so kept entries stay in order |
| `TransactionsPage.ReplaceById` | client/src/pages/Transactions.jsx:127-129 | same length; entries with the edited id become the returned one, all others are unchanged in place |
| `TransactionsPage.ReplaceByIdAt` | client/src/pages/Transactions.jsx:127-129 | with distinct ids, exactly the entry at that position is replaced |
| `TransactionsPage.Page.constructor` | client/src/pages/Transactions.jsx:23-31 | empty list, no edit, no delete pending; the embedded add form gets no `onAdded` |
| `TransactionsPage.Page.ConfirmDelete` | client/src/pages/Transactions.jsx:70 | sets `deleteId` and nothing else |
| `TransactionsPage.Page.HandleDelete` | client/src/pages/Transactions.jsx:72-83 | the request goes to the pending `deleteId`; `deleteId` is cleared either way; on success the entries with that id are removed; on failure the list is unchanged |
| `TransactionsPage.Page.StartEdit` | client/src/pages/Transactions.jsx:86-95 | sets `editingId` to the transaction's id and the form to its edit form, and nothing else |
| `TransactionsPage.Page.CancelEdit` | client/src/pages/Transactions.jsx:97-100 | `editingId` becomes null and the form `{}` |
| `TransactionsPage.Page.HandleEditChange` | client/src/pages/Transactions.jsx:102-105 | only the named form key changes |
| `TransactionsPage.Page.SaveEdit` | client/src/pages/Transactions.jsx:107-137 | sends the payload the form yields, for the id being edited; only a sent and answered update replaces the matching entry and clears the edit state; otherwise list and edit state are unchanged |
| `AuthContext.InitialToken` | client/src/context/AuthContext.jsx:6 | a token iff the stored "token" is present and non-empty, and then it is that value |
| `AuthContext.StoreSession` | client/src/context/AuthContext.jsx:8-13 | the three keys take the new token, name and email; every other key is kept |
| `AuthContext.ClearSession` | client/src/context/AuthContext.jsx:15-20 | exactly "token", "name" and "email" are removed; every other key is kept |
| `AuthContext.LoginThenLogout` | client/src/context/AuthContext.jsx:8-20 | login then logout leaves none of the three keys, and the other keys as they were |
| `AuthContext.ReloadRestoresSession` | client/src/context/AuthContext.jsx:6-20 | a reload after login is authenticated iff the token is non-empty; a reload after logout is not |
| `AuthContext.Provider.constructor` | client/src/context/AuthContext.jsx:5-6 | the token state starts from the stored token, so memory and storage agree on being authenticated |
| `AuthContext.SignedInIffTokenStored` | client/src/context/AuthContext.jsx:6-26 | a fresh page is authenticated iff a non-empty token is stored; neither a missing nor an empty token counts (`!!token`) |
| `AuthContext.Provider.Login` | client/src/context/AuthContext.jsx:8-13 | writes the three keys; the token becomes `newToken`; authenticated iff it is non-empty; memory and storage still agree |
| `AuthContext.Provider.Logout` | client/src/context/AuthContext.jsx:15-20 | removes exactly the three keys; the token becomes null; not authenticated; memory and storage still agree |
| `Scenarios.CategoriesAgree` | client/src/components/TransactionForm.jsx:152 | the form's category options are exactly the server's accepted categories |
| `Scenarios.SignupThenLogin` | server/src/controllers/authController.js:16-77 | signup of Alice is 201; login is 200 with her token; the login as written is 500 |
| `Scenarios.SingleExpense` | server/src/controllers/transactionController.js:6-69 | one expense of -500 gives summary {0, -500, -500, 1} |
| `Scenarios.IncomeThenExpense` | server/src/controllers/transactionController.js:6-69 | income 1000 then expense -300 gives summary {1000, -300, 700, 2} |
| `Scenarios.DeleteThenGet` | server/src/controllers/transactionController.js:93-148 | another user's read is 404; the owner's delete succeeds; a read after it is 404 |

## Left out

- HTTP and Express plumbing, CORS, the axios and `fetch` wrappers, loading flags, toasts, page redirects and the `document.body` overflow toggling: none of them decides any state the model keeps. A request's outcome is a parameter (`accepted`, `deleted`, `reply`).
- Token verification in the authentication middleware: that middleware is not part of this model. The caller's user id is a parameter of every ledger operation.
- JWT signing, the secret and the 7-day expiry: a token is modelled as the user id it is issued for.
- bcrypt: `genSalt`'s randomness is the `salt` parameter, `hash` and `compare` are function parameters, and nothing is proved about their cryptographic properties.
- The Transaction schema file is not part of this model. A transaction's `save()` is taken to succeed, so the 500 answers of the ledger handlers, and any schema enum or extra validation, are not modelled. Neither are the `createdAt`/`updatedAt` timestamps.
- Floating point: amounts are integers (minor units), so sums are exact. JSON coercions are not modelled: an amount sent as a string, `null` field values, and NaN.
- Dates: server dates are integer timestamps compared with an explicit "now". The client passes the form's date text through. `new Date(...)`, `toISOString`, invalid dates and locale formatting are not modelled. The list page takes the server's ISO text as the date `startEdit` cuts to ten characters.
- `ClientAmount.ParseNumber`: covers blank text, an optional sign and decimal digits. Text with a decimal point, an exponent, a hex prefix or `Infinity` reads as NaN in the model, though JavaScript gives a number; `-0` is not distinguished from 0.
- `Text.Trim` and `Text.Lower`: white space and case follow ASCII plus no-break space and the byte-order mark. The other Unicode spaces and case mappings of JavaScript are not modelled.
- `Auth.CredentialStore.Signup`: name, email and password are always text. A field missing from the body is not modelled: bcrypt throwing on `undefined`, and Mongoose's treatment of `{ email: undefined }` in the duplicate query.
- `Ledger.ApplyPatch`: a body carrying `_id` is not modelled (Mongo refuses to change it).
- MongoDB query execution: the collection is a sequence. `Ledger.SortByDateDesc` stands for `.sort({ date: -1 })` and promises no particular order among equal dates, as the store does not either.
- `fetchTransactions` (replacing the list with the server's answer) and `formatCurrency` are left out: they are I/O and formatting.
- Concurrency between requests: each handler is one atomic step on the store. Two signups racing past the duplicate query and hitting the unique index (a 500) cannot happen in this sequential model.
- Rendering, routing, the other pages and components, and the commented-out drafts in `TransactionForm.jsx`, `Login.jsx` and `Signup.jsx`.

## Findings

| source | as written | input that shows it | evidently intended | confidence | as-written member | corrected member |
|---|---|---|---|---|---|---|
| server/src/controllers/authController.js:67 | `loginUser` calls `user.matchPassword(password)`, but the User schema (server/src/models/User.js:3-18) defines no such method, so the call throws and the catch answers 500 "Server error" for every login whose email is stored | sign up `{name: "Alice", email: "a@x.com", password: "secret"}`, then log in with `{email: "a@x.com", password: "secret"}` | compare the password with the stored bcrypt hash: 200 with a token on a match, the generic 401 otherwise | high (the schema file is complete and defines no methods); not executed | `Auth.LoginAsWritten`, `Auth.SignupThenLoginAsWritten` | `Auth.Login`, `Auth.SignupThenLogin` |

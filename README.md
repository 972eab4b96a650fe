# International Banking Portal: a Dafny model of its core

This project models the part of the International Banking Portal that decides things. The portal is a Node/Express and MongoDB API with a React client. The model covers:

- the Payment and User schemas: enums, defaults, required paths, the unique account number and the password hashing hook;
- the payment routes: the pending and submitted listings, the bank-name back-fill from a SWIFT directory, and the status and reject updates;
- the employee review screen: the client's SWIFT check and its four review lists;
- the authentication middleware's chain of guards;
- registration, login and the token generator;
- the seeding script;
- the field validators;
- two small client helpers: the status badge class, and the dashboard totals and greeting.

Modules follow the source files:

| module | file |
|---|---|
| `Common` | option and result types, falsy-string test |
| `Text` | `trim`, ASCII `toUpperCase`/`toLowerCase`, `startsWith`, `split` |
| `PaymentModel` | `banking-api/models/Payment.js` |
| `UserModel` | `banking-api/models/User.js`, plus the user collection |
| `PaymentRoutes` | `banking-api/routes/paymentRoutes.js` |
| `EmployeePortal` | `src/components/EmployeePortal.jsx` |
| `AuthMiddleware` | `banking-api/middleware/authMiddleware.js` |
| `AuthRoutes` | `banking-api/routes/authRoutes.js` |
| `Seed` | `banking-api/seedUsers.js` |
| `Validators` | `banking-api/utils/validators.js` |
| `Transactions` | `src/components/Transactions.jsx` |
| `Home` | `src/components/Home.jsx` |

How the surroundings are modelled:

- **Stores.** The payment collection is a map from id to record, held by a `PaymentStore` object that the two PATCH routes update in place. The user collection is a sequence of users, in insertion order, held by a `UserStore`. Its invariant is that account numbers and ids are unique.
- **Crypto.** `bcrypt.hash` is the constructor `Hashed` applied to a credential. `bcrypt.compare(raw, h)` holds exactly when `h` is the hash of the plain text `raw`. `jwt.sign` and `jwt.verify` are function parameters. The clock (`Date.now()`, `getHours()`) and the `JWT_SECRET` variable are parameters too.
- **The review screen.** It is a `ReviewBoard` object whose methods update its four lists and its map of "verifying" flags.

## Model

| member | source | states |
|---|---|---|
| PaymentModel.ParseStatus | banking-api/models/Payment.js:34-38 | a status name is accepted exactly when it is one of the five schema names, and parses to the status with that name |
| PaymentModel.StatusNameRoundTrip | banking-api/models/Payment.js:36 | every status parses back from its name |
| PaymentModel.ParseType | banking-api/models/Payment.js:26-31 | a type name is accepted exactly when it is "payment" or "transfer" |
| PaymentModel.TypeNameRoundTrip | banking-api/models/Payment.js:28 | every type parses back from its name |
| PaymentModel.FailingPaths | banking-api/models/Payment.js:6-38 | a path is reported exactly when it fails: a missing user or amount, an absent or empty currency or account number, or an unlisted type or status. No path is reported exactly when the draft is valid |
| PaymentModel.ApplySchema | banking-api/models/Payment.js:3-41 | a draft is stored exactly when it is valid, with every field copied and with type defaulting to payment and status to initialized; otherwise the error lists the failing paths |
| PaymentModel.DefaultsApply | banking-api/models/Payment.js:26-38 | a draft with the required fields and no type or status is stored as an initialized payment |
| PaymentModel.UnlistedStatusRefused | banking-api/models/Payment.js:34-38 | a status outside the five names is refused whatever else the draft holds |
| UserModel.BcryptHash | banking-api/models/User.js:22-24 | comparing typed text against the hash of `c` succeeds exactly when `c` is that plain text |
| UserModel.DoubleHashNeverMatches | banking-api/routes/authRoutes.js:87 | in this model, where a hash is never typed text, no typed text matches a hash of a hash |
| UserModel.FindByAccount | banking-api/routes/authRoutes.js:69 | finds a user with that account number when there is one, and none exactly when no user has it |
| UserModel.FindById | banking-api/middleware/authMiddleware.js:30 | finds a user with that id when there is one, and none exactly when no user has it |
| UserModel.FindByAccountFindsMember | banking-api/models/User.js:8 | with unique account numbers, looking up a stored user's account number returns that user |
| UserModel.FindByIdFindsMember | banking-api/middleware/authMiddleware.js:30 | with unique ids, looking up a stored user's id returns that user |
| UserModel.UniqueMeansCountOne | banking-api/models/User.js:8 | under the unique index every stored account number occurs exactly once, and any other occurs zero times |
| UserModel.UserDocument.constructor | banking-api/models/User.js:4-15 | a new document holds the given paths and counts its password as modified |
| UserModel.UserDocument.PreSave | banking-api/models/User.js:20-25 | a modified password is replaced by its hash; an unmodified one is left as it is |
| UserModel.UserStore.Save | banking-api/models/User.js:6-25 | a missing required path fails validation and stores nothing. Otherwise the hook runs; then a duplicate account number is refused by the index, or exactly one user is appended under a fresh id and the id counter advances. A failure leaves the users, the counter and the document's modified flag as they were. The store invariant is kept |
| PaymentRoutes.Enrich | banking-api/routes/paymentRoutes.js:32-35 | a non-empty bank name is kept. Otherwise the directory's name for the trimmed, upper-cased code is used, or else "—". The result always has a bank name, and no other field changes |
| PaymentRoutes.EnrichIdempotent | banking-api/routes/paymentRoutes.js:32-35 | enriching twice equals enriching once |
| PaymentRoutes.DirectoryNamesPresent | banking-api/routes/paymentRoutes.js:7-20 | every directory name is non-empty |
| PaymentRoutes.PendingTransfers | banking-api/routes/paymentRoutes.js:31-35 | lists exactly the records that are pending transfers, each enriched |
| PaymentRoutes.SubmittedRecords | banking-api/routes/paymentRoutes.js:72-76 | lists exactly the submitted records of either type, each enriched |
| PaymentRoutes.ListingsDisjoint | banking-api/routes/paymentRoutes.js:29-82 | no record appears in both listings |
| PaymentRoutes.ValidStatusesParse | banking-api/routes/paymentRoutes.js:47 | the four accepted values are schema statuses, and none of them is initialized |
| PaymentRoutes.StatusUpdate | banking-api/routes/paymentRoutes.js:44-62 | a value outside the four gives 400 with the store unchanged, whatever the id. An absent id gives 404 with the store unchanged. Otherwise only that record's status is set, from any status; every other record and the key set stay the same |
| PaymentRoutes.RejectUpdate | banking-api/routes/paymentRoutes.js:85-97 | an absent id gives 404 with the store unchanged; otherwise that record becomes rejected, whatever its status was, and nothing else changes |
| PaymentRoutes.InitializedRefused | banking-api/routes/paymentRoutes.js:47-50 | "initialized" is refused with 400 even for an existing record |
| PaymentRoutes.RejectIsStatusUpdate | banking-api/routes/paymentRoutes.js:87-91 | reject leaves the store as a status update to "rejected" would |
| PaymentRoutes.RejectIdempotent | banking-api/routes/paymentRoutes.js:87-91 | rejecting twice equals rejecting once, in store and in reply |
| PaymentRoutes.RejectedLeavesListings | banking-api/routes/paymentRoutes.js:85-97 | a rejected record is in neither listing |
| PaymentRoutes.SubmittedMovesListing | banking-api/routes/paymentRoutes.js:52-56 | setting a record to submitted lists it under submitted and not under pending |
| PaymentRoutes.PaymentStore.UpdateStatus | banking-api/routes/paymentRoutes.js:44-62 | the reply and the new store are those of `StatusUpdate` on the old store, and records stay keyed by their ids |
| PaymentRoutes.PaymentStore.Reject | banking-api/routes/paymentRoutes.js:85-97 | the reply and the new store are those of `RejectUpdate` on the old store |
| EmployeePortal.InvalidWithoutBankOrCode | src/components/EmployeePortal.jsx:92-94 | an unknown bank name, or an absent or blank code, is never valid |
| EmployeePortal.ValidMeansDirectoryCode | src/components/EmployeePortal.jsx:92-94 | a valid payment's normalised code is a directory code of 8 or 11 characters |
| EmployeePortal.CodeComparisonNormalises | src/components/EmployeePortal.jsx:92 | a valid payment stays valid when its code is re-entered in lower case between any white space |
| EmployeePortal.BankNameCaseSensitive | src/components/EmployeePortal.jsx:93 | the name lookup is exact: "nedbank limited" is never valid |
| EmployeePortal.LongFormRefused | src/components/EmployeePortal.jsx:94 | a directory code followed by "XXX" never matches that code |
| EmployeePortal.ShortEntries | src/components/EmployeePortal.jsx:6-19 | the directory entries holding 8-character codes are exactly Discovery, First National Bank (FNB) and Standard Bank |
| EmployeePortal.ShortEntryRefusesLongForm | src/components/EmployeePortal.jsx:11 | Discovery Bank Limited with "DISCZAJJXXX" is refused |
| EmployeePortal.DirectoriesDisagree | banking-api/routes/paymentRoutes.js:7-20 | a transfer naming no bank and carrying a server directory code passes the client check exactly for the eight codes on which the two directories agree |
| EmployeePortal.RemoveId | src/components/EmployeePortal.jsx:108 | the filtered list holds exactly the entries with another id |
| EmployeePortal.RemoveIdAppend | src/components/EmployeePortal.jsx:108 | filtering distributes over concatenation, so the kept entries keep their order |
| EmployeePortal.RemoveIdAbsent | src/components/EmployeePortal.jsx:149 | a list without that id is unchanged by the filter |
| EmployeePortal.ReviewBoard.constructor | src/components/EmployeePortal.jsx:72-74 | the loaded pending, submitted and rejected lists are shown; nothing is verified or verifying |
| EmployeePortal.ReviewBoard.BeginApprove | src/components/EmployeePortal.jsx:91-99 | the verdict is the SWIFT check; the payment is marked verifying; no list changes |
| EmployeePortal.ReviewBoard.CompleteApprove | src/components/EmployeePortal.jsx:101-131 | the flag is cleared and the payment leaves pending. A valid payment is appended to verified with unverified unchanged. An invalid one is appended to unverified as rejected with verified unchanged, and only then is a backend reject requested. Submitted is unchanged |
| EmployeePortal.ReviewBoard.SwiftSubmit | src/components/EmployeePortal.jsx:136-156 | once the response is read, the payment leaves verified and is appended to submitted; the other lists and flags are unchanged |
| AuthMiddleware.BearerToken | banking-api/middleware/authMiddleware.js:11-15 | a token exists exactly when the header is present and starts with "Bearer ". It is the second piece of `split(" ")` and contains no space |
| AuthMiddleware.Authenticate | banking-api/middleware/authMiddleware.js:6-56 | no token gives 401 "No token provided", and a refused token gives 401 "Unauthorized request". An expired token gives 401 "Token expired". A token without an id, or naming no stored user, gives 404 "User not found". Admission happens exactly when the token verifies, has not expired, and names a stored user. The admitted actor is the stored user whose id the token names: its id and role, with no password |
| AuthMiddleware.BadHeaderShortCircuits | banking-api/middleware/authMiddleware.js:11-13 | a bad header gives 401 "No token provided" whatever the verifier, the clock and the users are |
| AuthMiddleware.ExpiryBeforeLookup | banking-api/middleware/authMiddleware.js:24-26 | an expired token gives 401 "Token expired" whatever the users are |
| AuthMiddleware.UnknownUserRefused | banking-api/middleware/authMiddleware.js:30-33 | a valid, unexpired token for no stored user gives 404 "User not found" |
| AuthMiddleware.HonestVerifierNeverReportsExpired | banking-api/middleware/authMiddleware.js:20-26 | when the verifier itself refuses tokens past their second, the "Token expired" reply is never given |
| AuthRoutes.TokenClaims | banking-api/routes/authRoutes.js:17 | the token names the id and expires one day after the current second |
| AuthRoutes.GenerateToken | banking-api/routes/authRoutes.js:11-18 | a token is made exactly when the secret is set and non-empty, and it is the signature of the one-day claims for the id under that secret |
| AuthRoutes.TokenRoundTrip | banking-api/routes/authRoutes.js:17 | a generated token verifies to its claims and is not expired until its day is over |
| AuthRoutes.Login | banking-api/routes/authRoutes.js:61-110 | a missing field gives 400, and an unknown account gives 404 "Invalid credentials.". A name mismatch gives 401 "Full name does not match." whatever the password. A matching name with a wrong password gives 401 "Invalid credentials.". A matching name and password without a secret give 500 "Internal server error.". Success happens exactly when the name matches (trimmed, case-insensitive), the trimmed password matches the stored hash, and a secret is set. It replies 200 with the token and the public user |
| AuthRoutes.NameCheckIgnoresCaseAndPadding | banking-api/routes/authRoutes.js:77 | the name check ignores the typed name's case and surrounding white space |
| AuthRoutes.PaddedPasswordLocksOut | banking-api/routes/authRoutes.js:82-92 | a user whose stored password ends in white space can never log in |
| AuthRoutes.AccountProbeByStatus | banking-api/routes/authRoutes.js:69-92 | an unknown account and a wrong password share the message "Invalid credentials.", but get statuses 404 and 401 |
| AuthRoutes.LoginThenAuthenticate | banking-api/routes/authRoutes.js:94-105 | a login token sent as a bearer header within its day admits the user who logged in, with that user's role |
| AuthRoutes.Register | banking-api/routes/authRoutes.js:21-59 | a missing field gives 400 and an existing account number gives 400 "Account number already registered."; neither changes the users or the id counter. Otherwise exactly one customer with the hashed password is appended. The reply is 201 with the token and public user, or 500 without a secret, with the user still stored. Uniqueness is kept |
| AuthRoutes.RegisterThenLogin | banking-api/routes/authRoutes.js:39-105 | after registering, logging in with the same account number, name and password (without surrounding white space) succeeds |
| Seed.SeedOne | banking-api/seedUsers.js:49-65 | an entry whose account number is stored is skipped, with the users and the id counter unchanged; otherwise exactly one user, made from the entry, is appended under the next id |
| Seed.SeedStep | banking-api/seedUsers.js:49-65 | one pass of the loop carries its progress one entry further: the entry is skipped or inserted, and the store invariant is kept |
| Seed.SeedWith | banking-api/seedUsers.js:48-67 | the old users form a prefix, the account numbers become the old ones plus the entries', every new user is an entry with a hook-hashed password field, and when every entry was already stored nothing changes |
| Seed.SeedUsers | banking-api/seedUsers.js:13-67 | as `SeedWith` for the four seed entries: the old users form a prefix, the seed account numbers are added, and every inserted user is a seed entry with its name, id number, account number and role. Each stores the hash of the hash of "Password123". When every seed account was already stored nothing changes |
| Seed.SeededRoles | banking-api/seedUsers.js:13-46 | an inserted user is an employee exactly when its account number is 100000000001 or 100000000002, and a customer otherwise |
| Seed.SeedAccounts | banking-api/seedUsers.js:13-46 | the seed account numbers are 100000000001, 100000000002, 200000000001 and 200000000002; the first two entries are employees and the last two customers |
| Seed.SeedTwiceIsOnce | banking-api/seedUsers.js:48-67 | when a run has added the seed account numbers to those stored before, every seed account number is stored |
| Seed.SeedUsersTwice | banking-api/seedUsers.js:48-67 | running the script twice: the collection after the second run is the one after the first, which extends the original by the seed accounts |
| Seed.SeedAccountsOnce | banking-api/seedUsers.js:13-46 | after a run each seed account number is stored exactly once |
| Seed.SeededUserLoginFails | banking-api/seedUsers.js:55-60 | no typed password, "Password123" included, logs a seeded user in, since the stored value is a hash of a hash |
| Seed.SeedUsersCorrected | banking-api/seedUsers.js:55-60 | with the plain password handed over, every inserted user is a seed entry whose stored password is the single hash of "Password123"; otherwise as `SeedUsers` |
| Seed.CorrectedSeedAllowsLogin | banking-api/seedUsers.js:55-60 | with the corrected password field a seeded user logs in with the seed's password |
| Validators.LookaheadMeaning | banking-api/utils/validators.js:5 | `(?=.*k)` holds exactly when a character of `k` occurs with no line terminator before it |
| Validators.RunCoversAll | banking-api/utils/validators.js:2-5 | the anchored run covers the string exactly when every character is in the class |
| Validators.FullNameMeaning | banking-api/utils/validators.js:2 | a full name is accepted exactly when it has 2 to 50 characters, each a letter or white space |
| Validators.IdNumberMeaning | banking-api/utils/validators.js:3 | an id number is accepted exactly when it is 13 digits |
| Validators.AccountNumberMeaning | banking-api/utils/validators.js:4 | an account number is accepted exactly when it is 10 to 16 digits |
| Validators.PasswordMeaning | banking-api/utils/validators.js:5 | a password is accepted exactly when it has at least 8 characters from letters, digits and `@$!%*?&`, including a letter and a digit |
| Validators.BlankNameAccepted | banking-api/utils/validators.js:2 | two spaces pass as a full name |
| Validators.AnchoredBothEnds | banking-api/utils/validators.js:2-5 | one character outside the class before or after a value makes it rejected |
| Validators.ValidateField | banking-api/utils/validators.js:8-10 | the four fields get their pattern's answer on the value, or on the text "undefined" when the value is omitted. Inherited object names throw a TypeError. Any other name gives undefined |
| Validators.AbsentNameAccepted | banking-api/utils/validators.js:9 | an omitted full name passes, because the text "undefined" is nine letters |
| Validators.UnknownFieldNeverPasses | banking-api/utils/validators.js:9 | a field without a pattern never passes |
| Transactions.GetStatusClass | src/components/Transactions.jsx:53-68 | an absent status gives the empty class. A status whose lower-cased text is a schema status name gives that status's class. Any other text gives the empty class |
| Transactions.ClassOfInjective | src/components/Transactions.jsx:55-64 | different statuses get different classes |
| Transactions.CaseInsensitive | src/components/Transactions.jsx:54 | upper- and lower-cased forms of a status get the same class |
| Transactions.EveryStatusHasItsClass | src/components/Transactions.jsx:55-64 | each of the five statuses gets its own class |
| Transactions.OtherTextNoClass | src/components/Transactions.jsx:65-66 | text that is no status name in any case gets the empty class |
| Home.SentIsSumOfTransfers | src/components/Home.jsx:19 | the total sent is the sum over the transfers |
| Home.ReceivedIsSumOfOthers | src/components/Home.jsx:19 | the total received is the sum over every other record |
| Home.SentPlusReceived | src/components/Home.jsx:16-20 | sent plus received is the sum of all amounts |
| Home.EmptyHistoryShowsInitial | src/components/Home.jsx:7 | no payments give the initial all-zero figures |
| Home.ComputeStats | src/components/Home.jsx:16-20 | sent is the sum over transfers, received the sum over the rest, the balance is received minus sent, and these two add up to the total |
| Home.GreetingFor | src/components/Home.jsx:29-34 | morning exactly before 12, afternoon exactly from 12 to 17, evening exactly from 18 |
| Home.GreetingMonotone | src/components/Home.jsx:29-34 | the greeting never goes back as the hour advances |
| Home.GreetingTextsDistinct | src/components/Home.jsx:31-33 | the three greetings have distinct texts |

## Left out

- Timestamps (`timestamps: true` on both schemas) are not modelled: they are clock values with no bearing on any decision.
- A malformed id in a route is not modelled. Mongoose's cast of such an id throws, which the routes answer with 500. The model's ids are always well-formed, so it has no 500 path there.
- Faults of the database and the network are not modelled: connection loss, and the replies of the catch blocks that handle them. These are 500 in the routes ("Internal server error." for login, registration and the two updates; a route-specific text for `/me` and the two listings) and 401 "Unauthorized request" in the middleware, where a failing `User.findById` is caught. Concurrent requests are left out too, so a duplicate-key error from racing registrations cannot occur.
- bcrypt's salt, its cost factor and its 72-byte truncation are not modelled; a hash is symbolic.
- The JWT encoding and signature are not modelled. Signing and verifying are parameters, related only by the `SignsFor` predicate.
- Case mapping is ASCII only. `toUpperCase`/`toLowerCase` outside ASCII (for example "ß" or the dotted "İ") are not modelled.
- Request bodies are strings or absent. JSON numbers, arrays or operator objects in a body are not modelled, nor the TypeError that `trim` would throw on them.
- Amounts are integers in minor units; JavaScript's floating-point sums are not modelled.
- `express-rate-limit` (declared in the payment routes but never applied) and the server set-up file are out of scope: `banking-api/server.js` is not part of this model.
- Client requests, timers, toasts, local storage, rendering and the dashboard's locale formatting are out of scope. `ReviewBoard.CompleteApprove` returns whether the client sends its reject request, instead of sending it.
- The URL and response-field mismatches between the client and the routes are adapter defects, not behaviour, and are not modelled.
- The listings' order is not modelled: MongoDB does not fix it, and the routes do not sort.
- The payment creation, history and per-account routes the client calls are not among these files and are not modelled.
- `GET /me` returns the middleware's actor unchanged and has no separate member.
- AuthMiddleware.Authenticate: the attached actor's `name` and `email` are always absent. The user schema has neither path, so this is the source's behaviour, not a weakening.
- AuthMiddleware.Authenticate: `verify` is evaluated at the request's time and stands for the whole of `jwt.verify`. Why it can throw (bad signature, malformed token, its own expiry check) is not distinguished.

- UserModel.DoubleHashNeverMatches, Seed.SeededUserLoginFails: a hash is never typed text here. In the source a hash is a string, and `bcrypt.compare` would accept the 60-character inner hash the seeding script computes and discards. Typing that string is not modelled; it is salted and never stored, so it cannot be known.
- The payment route members (`StatusUpdate`, `RejectUpdate`, `PendingTransfers`, `SubmittedRecords` and the `PaymentStore` methods) model each handler after `authMiddleware` has admitted the caller. A request that the middleware refuses gets its 401 or 404 from `AuthMiddleware.Authenticate` and never reaches the store. The routes check no role, so any admitted actor, customer or employee, may update or reject a payment. The model does not compose the routes with the middleware.

- Console logging is not modelled, including the plain password logged at login and the raw registration body logged at registration; it has no bearing on any reply or stored value.
- Validators.ValidateField: a `null` value, tested as the text "null", and values of other types are not modelled; an omitted or `undefined` value is.

## Findings

| source | as written | input that shows it | evidently intended | confidence | as-written member | corrected member |
|---|---|---|---|---|---|---|
| banking-api/seedUsers.js:55-60 | the script hashes the seed password and hands the hash to `new User`; the pre-save hook sees a modified password and hashes it again, so the stored value is hash(hash("Password123")) | seed user 100000000001, then log in as "Thabo Mokoena" with "Password123": the compare fails and the reply is 401 "Invalid credentials." | store hash("Password123") so that the seed users can log in | high; not executed | Seed.SeededUserLoginFails | Seed.CorrectedSeedAllowsLogin |

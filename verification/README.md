# Personal-finance backend: ownership-scoped record stores

This project models the core of a personal-finance REST backend in Dafny. Authenticated users keep four kinds of records: accounts, incomes, expenses and savings goals. Each kind lives in its own collection and is managed through five route handlers: list, create, get by id, update by id and delete by id. Every record names its owning user. The single-record handlers answer 404 "not found" for an absent id before they answer 401 "Not authorized" for another user's record, and only the owner reaches the read, write or removal. A separate pair of public handlers registers users and logs them in against a user collection keyed by email.

The four route files repeat one pattern, so it is written once:

- `OwnedStore` (owned_store.dfy) is a generic store over `map<RecordId, Entry<F>>`. An `Entry` is the owner, the resource fields `F` and the creation time. The module has the existence-then-ownership `Lookup` and the store operations `Save`, `Edit` and `Remove`.
- `Listing` (listing.dfy) is the list handler, `find({user}).sort({key: -1})`. It is a sorted insertion over the caller's records. It also proves that the order is fully determined when no two of the caller's records share a sort key.
- `StoreLaws` (store_laws.dfy) states how the operations compose: reads after a create, update or delete, and the isolation of every other user's data.
- `AccountModel`, `IncomeModel`, `SavingModel` and `ExpenseModel` model the schemas. Each covers required paths, defaults and `createdAt`.
- `AccountRoutes`, `IncomeRoutes`, `ExpenseRoutes` and `SavingRoutes` model the five handlers of each route file.
- `AuthRoutes` (auth_routes.dfy) models register and login.

The environment appears only as parameters:

- The authentication middleware becomes the `caller: UserId` each protected handler receives.
- The database's fresh `_id` becomes an `id` parameter. An `_id` already in use is the duplicate-key failure, answered 500.
- `Date.now` becomes a `now` parameter.
- `user.comparePassword` becomes a `matches(stored, given)` function parameter.
- Amounts are `real`. Dates are `int` timestamps, and a request date that does not parse is a missing field.
- JavaScript's `x || y` on numbers treats a missing value, `null` and `0` as falsy. This is `Common.Truthy` and `Common.Or`.

The model follows the code in four places where a general description of such a service might lead one to expect otherwise:

- A non-owner gets 401 "Not authorized", not 403.
- A failed schema validation surfaces through the handler's `catch` as 500 "Server error", not as a distinct validation error.
- Updates name every field in one `$set` rather than describing a partial update. The model therefore takes an update request that carries all fields, except that the saving update's `targetAmount` stays optional.
- Registration checks only the email for duplicates, and takes no username.

## Model

| member | source | states |
|---|---|---|
| OwnedStore.Lookup | routes/accounts.js:47-57 | an absent id answers NotFound (404); an existing record of another user answers NotAuthorized (401); only the owner gets the stored record |
| OwnedStore.Save | routes/accounts.js:34-35 | a saved document is added under exactly its fresh id with every other record untouched, and the saved document is the answer; a taken id is a 500 with the collection unchanged; no other user's records change |
| OwnedStore.Edit | routes/accounts.js:74-89 | after the existence and ownership checks, the owner's record gets the new fields, keeps its owner and creation time, and is returned; every other id is untouched; a refused update changes nothing |
| OwnedStore.Remove | routes/accounts.js:102-117 | after the existence and ownership checks, exactly that id leaves the collection and all other records stay as they were; a refused delete changes nothing |
| Listing.Position | routes/accounts.js:12 | the insertion point lies after every document with a larger key and before the first whose key does not exceed the new one |
| Listing.Insert | routes/accounts.js:12 | inserting into a list sorted by descending key keeps it sorted, yields exactly the old documents plus the new one as a multiset, and keeps ids free of repeats |
| Listing.List | routes/accounts.js:12 | the list holds exactly the caller's records as stored, each once, in non-increasing key order |
| Listing.StrictlyDescendingUnique | routes/incomes.js:12 | two lists with the same documents in strictly descending key order are identical |
| Listing.ListingUnique | routes/incomes.js:12 | when the caller's records have distinct sort keys, the list route has exactly one correct answer |
| Listing.ListingStrict | routes/incomes.js:12 | with distinct keys, a correct listing is strictly descending |
| StoreLaws.SaveThenLookup | routes/accounts.js:27-59 | a created record reads back unchanged for its owner and is refused with NotAuthorized to anyone else |
| StoreLaws.EditThenLookup | routes/accounts.js:87-89 | a read after an update returns exactly what the update answered |
| StoreLaws.RemoveThenLookup | routes/accounts.js:105-115 | after a delete, every user gets NotFound for that id |
| StoreLaws.SaveGrowsOwned | routes/accounts.js:27-34 | a create adds exactly the new id to its owner's records |
| StoreLaws.RemoveShrinksOwned | routes/accounts.js:115 | a delete removes exactly that id from its owner's records |
| StoreLaws.ListingIsolated | routes/accounts.js:12 | a request by one user leaves every other user's correct lists exactly as they were |
| AccountModel.Build | models/Account.js:3-26 | a document is valid exactly when user, name and type are present; a missing balance becomes 0; a missing createdAt becomes the current time |
| IncomeModel.Build | models/Income.js:3-25 | a document is valid exactly when user, source, amount and date are present; a missing createdAt becomes the current time |
| IncomeModel.DateIndependentOfCreatedAt | models/Income.js:17-24 | changing the supplied creation time never changes the stored date or validity, and changing a present date never changes the stored creation time |
| SavingModel.Build | models/Saving.js:3-29 | a document is valid exactly when user, goal, amount and date are present; a missing targetAmount becomes 0; a missing createdAt becomes the current time |
| ExpenseModel.Build | routes/expenses.js:25-32 | a document is valid exactly when user, category, amount and date are present; createdAt defaults to the current time |
| AccountRoutes.List | routes/accounts.js:10-13 | the caller's accounts exactly, each once, newest createdAt first |
| AccountRoutes.Create | routes/accounts.js:25-35 | the new account is owned by the caller and holds the body's name and type, with balance defaulting to 0; it succeeds exactly when name and type are present and the id is fresh; a failure is a 500 with nothing stored |
| AccountRoutes.Get | routes/accounts.js:47-59 | NotFound for an absent id, NotAuthorized for another user's account, else the stored account |
| AccountRoutes.Update | routes/accounts.js:71-89 | after the checks, name, type and balance come from the body while owner and creation time stay; a refused update changes nothing |
| AccountRoutes.Delete | routes/accounts.js:102-117 | after the checks, exactly that account is removed; a refused delete changes nothing |
| AccountRoutes.CreateThenGet | routes/accounts.js:27-59 | a created account reads back as created for its owner and is refused to others |
| AccountRoutes.CreateIgnoresBodyOwner | routes/accounts.js:25-32 | a `user` in the request body has no effect on the outcome |
| IncomeRoutes.List | routes/incomes.js:10-13 | the caller's incomes exactly, each once, latest transaction date first |
| IncomeRoutes.Create | routes/incomes.js:25-35 | the new income is owned by the caller with the body's source, amount and date; it succeeds exactly when all three are present and the id is fresh; a failure is a 500 with nothing stored |
| IncomeRoutes.Get | routes/incomes.js:47-59 | NotFound for an absent id, NotAuthorized for another user's income, else the stored income |
| IncomeRoutes.Update | routes/incomes.js:71-93 | after the checks, source, amount and date come from the body while owner and creation time stay; a refused update changes nothing |
| IncomeRoutes.Delete | routes/incomes.js:106-121 | after the checks, exactly that income is removed; a refused delete changes nothing |
| IncomeRoutes.CreateThenGet | routes/incomes.js:27-59 | a created income reads back as created for its owner and is refused to others |
| IncomeRoutes.CreateIgnoresBodyOwner | routes/incomes.js:25-32 | a `user` in the request body has no effect on the outcome |
| IncomeRoutes.ListOrderExample | routes/incomes.js:12 | incomes dated 2024-01-01, 2024-03-01 and 2024-02-01 can only be listed March, February, January |
| ExpenseRoutes.List | routes/expenses.js:10-13 | the caller's expenses exactly, each once, latest transaction date first |
| ExpenseRoutes.Create | routes/expenses.js:25-35 | the new expense is owned by the caller with the body's category, amount and date; it succeeds exactly when all three are present and the id is fresh; a failure is a 500 with nothing stored |
| ExpenseRoutes.Get | routes/expenses.js:47-59 | NotFound for an absent id, NotAuthorized for another user's expense, else the stored expense |
| ExpenseRoutes.Update | routes/expenses.js:71-93 | after the checks, category, amount and date come from the body while owner and creation time stay; a refused update changes nothing |
| ExpenseRoutes.Delete | routes/expenses.js:106-121 | after the checks, exactly that expense is removed; a refused delete changes nothing |
| ExpenseRoutes.CreateThenGet | routes/expenses.js:27-59 | a created expense reads back as created for its owner and is refused to others |
| ExpenseRoutes.CreateIgnoresBodyOwner | routes/expenses.js:25-32 | a `user` in the request body has no effect on the outcome |
| SavingRoutes.List | routes/savings.js:10-13 | the caller's savings exactly, each once, newest createdAt first |
| SavingRoutes.Create | routes/savings.js:25-36 | the new saving is owned by the caller with the body's goal, amount and date; its target is the body's target when truthy, else 2.5 times the amount; it succeeds exactly when goal, amount and date are present and the id is fresh |
| SavingRoutes.Get | routes/savings.js:48-60 | NotFound for an absent id, NotAuthorized for another user's saving, else the stored saving |
| SavingRoutes.Update | routes/savings.js:72-101 | after the checks, goal, amount and date come from the body; the target is the body's target when truthy, else the previously stored target; owner and creation time stay |
| SavingRoutes.Delete | routes/savings.js:114-129 | after the checks, exactly that saving is removed; a refused delete changes nothing |
| SavingRoutes.CreateThenGet | routes/savings.js:27-60 | a created saving reads back as created for its owner and is refused to others |
| SavingRoutes.CreateIgnoresBodyOwner | routes/savings.js:25-33 | a `user` in the request body has no effect on the outcome |
| SavingRoutes.TargetDefaultThenKept | routes/savings.js:32-95 | amount 100 with no target gets target 250; a later update to amount 40 that omits the target keeps 250 |
| AuthRoutes.Register | routes/auth.js:12-39 | "User already exists" is the answer exactly when the email is known, and nothing changes; a fresh email whose id is already taken fails the save and answers 500 with nothing changed; otherwise exactly one user with the given name, email and password is added and the answer is its id, name and email without the password; the email-keyed, unique-id shape of the collection is preserved |
| AuthRoutes.Login | routes/auth.js:48-72 | success exactly when the email is known and the password matches, giving the claims `{user: id}` of that user with a 24-hour lifetime; every failure is "Invalid credentials" with status 400 |
| AuthRoutes.LoginFailuresAlike | routes/auth.js:51-60 | an unknown email and a wrong password receive the identical answer |
| AuthRoutes.RegisterTwiceRejected | routes/auth.js:15-18 | registering an email a second time is refused whatever the other fields, with no change |
| AuthRoutes.RegisterThenLogin | routes/auth.js:21-69 | after a registration, logging in with the same password yields the new user's 24-hour claims |

## Left out

- Server bootstrap (server.js) is left out: Express setup, CORS, environment loading, the database connection and listening are I/O plumbing.
- The authentication middleware (middleware/auth.js) is not part of this model. Token verification appears only as the `caller` id it produces.
- JWT signing is left out as cryptography. Login is modelled up to the claims it signs: the payload and the 24-hour lifetime. A signing error in the callback is not modelled.
- Password hashing and comparison (models/User.js) are not part of this model. The stored secret is whatever the User model receives, and `matches` stands in for `comparePassword`.
- The User schema's own validation is not part of this model. Register therefore fails only on a known email or a clashing id.
- The Expense schema (models/Expense.js) is not part of this model. ExpenseModel.Build takes the route's fields to be required the way the Income schema requires its own.
- ExpenseModel.Build: the required-field rule for expenses is assumed, because the Expense schema is not available.
- The `catch` blocks are reduced to a single ServerError outcome for validation failures and duplicate ids. Other database failures and logging are left out. Record ids are modelled as well-formed ObjectIds: a malformed `:id` makes `findById` throw a cast error, which the handlers answer with 500 rather than 404, and that path is not modelled.
- Concurrency between the existence check and the write (for example a record deleted in between) is left out. Handlers are modelled as atomic.
- AccountRoutes.Update: update bodies missing a field are not modelled. The body carries every field; what `$set` does with an `undefined` value depends on the Mongoose version.
- IncomeRoutes.Update: update bodies missing a field are not modelled. A missing `date` would become an invalid Date and answer 500.
- ExpenseRoutes.Update: update bodies missing a field are not modelled. A missing `date` would become an invalid Date and answer 500.
- SavingRoutes.Update: update bodies missing a field other than `targetAmount` are not modelled. A missing `date` would become an invalid Date and answer 500.
- Number and date representation is left out. Amounts are exact reals, so floating-point rounding of `amount * 2.5` is not modelled. `new Date(null)` becoming the epoch is not modelled, and a date is either a timestamp or missing.
- Mongoose casting of strings to numbers is left out, as are `null` versus `undefined` for an Account balance: a missing balance is taken as undefined, which receives the default.
- The relative order of records with equal sort keys is left open. Listing.List promises only a non-increasing order, as database sort stability is not specified.
- Listing.List: results are built by repeated sorted insertion rather than by the database's sort. Only the resulting order is claimed.

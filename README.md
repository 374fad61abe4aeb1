# Money-tracker backend: transactions, dashboard, guard and error handler

This project models the request-handling core of a small personal money-tracker
backend. Signed-in users record income and expense transactions. Each
transaction is filed under one of the user's named categories. The dashboard
sums the user's transactions into totals and a per-category pie chart.

The model covers these parts:

- **Bearer guard** (`Routes`). Both protected routers run it before their
  handlers. It takes the token after `"Bearer "` in the `Authorization` header,
  verifies it and derives the `user` profile; otherwise it answers 401.
- **Request schemas** (`Routes`). These are the create body, the update body,
  the `:id` parameter and the dashboard query.
- **Transaction handlers** (`TransactionFilter`, `TransactionStore`).
  - `getAll` builds the listing filter from the query string: date range,
    category id or comma-separated id list, and type. It lists the user's rows
    newest first.
  - `create` links the new row to the user's category of that name, creating
    the category on first use.
  - `update` changes a row only when the user owns it.
  - `delete` removes a row only when the user owns it.
- **Dashboard summary** (`Dashboard`). It produces income, expense and balance,
  plus the expense breakdown by category with category names looked up.
- **Central error handler** (`ErrorHandler`). It maps a thrown error and the
  framework's error code to a status and a body.
- **Shared definitions.** `Types` holds the shared values. `Text` holds the
  JavaScript string and number built-ins the handlers rely on: `split`, `trim`
  and `Number`.

The transaction store is a class whose fields (rows by id, categories, next id)
the handlers update in place. The database calls of the listing and the
dashboard are parameters of the model: each one gives back rows or a failure.
Date parsing and the clock are parameters too.

## Model

| member | source | states |
|---|---|---|
| Types.SignedInId | controller/dashboradcontroller.ts:15 | the sign-in check passes exactly for a present user whose id is present and non-zero, and yields that id |
| Types.TruthyId | controller/transactioncontroller.ts:26-30 | `create`'s check on the user id passes exactly when the id is present and non-zero, and yields that id |
| Types.TypeFromName | controller/transactioncontroller.ts:124-128 | a string is accepted as a transaction type exactly when it is "INCOME" or "EXPENSE", and the type's name is that string |
| Text.Split | controller/transactioncontroller.ts:108 | `split` on one character always yields at least one piece |
| Text.SplitJoin | controller/transactioncontroller.ts:108 | joining the pieces of a split with the separator gives back the original string |
| Text.SplitPieces | controller/transactioncontroller.ts:108 | no piece contains the separator, and there is one more piece than separators |
| Text.Trim | controller/transactioncontroller.ts:110 | `trim` yields a string no longer than its input, with no white space at either end |
| Text.TrimCutsWhiteSpace | controller/transactioncontroller.ts:110 | `trim` gives the slice of its input left after cutting white space, and only white space, off both ends |
| Text.TrimIdempotent | controller/transactioncontroller.ts:110 | trimming twice is trimming once |
| Text.ShowNatRoundTrip | controller/transactioncontroller.ts:110 | the decimal digits of a natural number read back as that number |
| Text.JsNumber | controller/transactioncontroller.ts:110-111 | `Number(s)` is a number exactly when the trimmed text is empty or a signed run of digits |
| Text.NumberOfTrimmed | controller/transactioncontroller.ts:110-111 | on text already stripped of white space, `Number` is a number exactly when the text is empty or a signed run of digits, and the empty text is 0 |
| Text.TrimUnspaced | controller/transactioncontroller.ts:110 | text that starts and ends with a non-space character is unchanged by `trim` |
| Text.LeadingZeroValue | controller/transactioncontroller.ts:110-111 | a leading zero does not change the value of a digit string |
| Text.SignedUntrimmed | controller/transactioncontroller.ts:110 | a sign followed by digits is unchanged by `trim` |
| Text.NumberOfSigned | controller/transactioncontroller.ts:110-111 | on trimmed text, a sign followed by digits reads as the digits' value, negated for a minus |
| Text.JsNumberPlus | controller/transactioncontroller.ts:110-111 | `Number("+" + d)` is the decimal value of the digits d |
| Text.JsNumberMinus | controller/transactioncontroller.ts:110-111 | `Number("-" + d)` is the negated decimal value of the digits d |
| Text.JsNumberDigits | controller/transactioncontroller.ts:110-116 | `Number` of any digit string, leading zeros included, and of that string after "+" or "-", is its decimal value with that sign |
| Text.JsNumberLeadingZero | controller/transactioncontroller.ts:110-116 | a leading zero changes nothing: "05" and "+05" read as `Number("5")` does |
| Text.JsNumberShowNat | controller/transactioncontroller.ts:116 | `Number` of a natural number's decimal form is that number |
| Text.JsNumberTrim | controller/transactioncontroller.ts:110 | trimming before `Number` changes nothing |
| Text.JsNumberMinusNotPositive | controller/transactioncontroller.ts:111 | a token starting with a minus sign never gives a positive id |
| TransactionFilter.DateGate | controller/transactioncontroller.ts:90-97 | the listing's date range is present exactly when both dates are non-empty; its bounds are the start of the first day and the end of the last |
| TransactionFilter.TokenId | controller/transactioncontroller.ts:110-111 | a token is kept exactly when `Number` of it is a number greater than zero, and it stands for that number |
| TransactionFilter.Kept | controller/transactioncontroller.ts:108-111 | mapping tokens to readings and keeping the present ones gives no more values than tokens |
| TransactionFilter.KeptAppend | controller/transactioncontroller.ts:108-111 | map-then-filter commutes with concatenating the tokens, so order and duplicates are kept |
| TransactionFilter.KeptSound | controller/transactioncontroller.ts:108-111 | every kept value is the reading of some token, which the lemma names |
| TransactionFilter.KeptComplete | controller/transactioncontroller.ts:108-111 | every present reading of a token is kept |
| TransactionFilter.KeptPositive | controller/transactioncontroller.ts:111 | when readings are always positive, so is every kept value |
| TransactionFilter.TokenIds | controller/transactioncontroller.ts:108-111 | the kept ids are no more than the tokens and all greater than zero |
| TransactionFilter.TokenIdsAppend | controller/transactioncontroller.ts:108-111 | parsing a list of tokens piecewise and concatenating gives the same ids, in the same order |
| TransactionFilter.TokenIdsMembership | controller/transactioncontroller.ts:108-111 | an id is in the parsed list exactly when some token stands for it |
| TransactionFilter.CategoryFilterOf | controller/transactioncontroller.ts:100-121 | an absent category id or "", "ALL", "undefined" filters nothing; text with a comma filters by the ids of its tokens when any are valid; otherwise one positive number filters by that id; anything else filters nothing |
| TransactionFilter.WhereFor | controller/transactioncontroller.ts:85-128 | the listing's `where` record is always scoped to the signed-in user |
| TransactionFilter.TypeFilterOf | controller/transactioncontroller.ts:124-128 | the listing filters by type exactly when the query gives "INCOME" or "EXPENSE" |
| TransactionFilter.GetAll | controller/transactioncontroller.ts:71-148 | a missing user is refused with 401's error; otherwise the store is asked once, with the owner-scoped filter and the date-then-id descending order, and a store failure becomes the fetch error |
| TransactionFilter.ListingIsOwnerScoped | controller/transactioncontroller.ts:85-87 | every row the filter selects belongs to the signed-in user |
| TransactionFilter.DigitsFilter | controller/transactioncontroller.ts:115-119 | a comma-free digit string, leading zeros included, with a positive value filters by that value |
| TransactionFilter.SingleAndListAgree | controller/transactioncontroller.ts:100-121 | "n" and "n," select exactly the same rows |
| TransactionFilter.TrailingCommaIds | controller/transactioncontroller.ts:108-111 | "n," parses to the single id n; the empty token after the comma is dropped |
| TransactionFilter.SentinelsSelectEverything | controller/transactioncontroller.ts:102-106 | the sentinel values leave every category selected |
| TransactionFilter.NoValidTokenNoFilter | controller/transactioncontroller.ts:112-114 | a comma list with no valid token filters nothing |
| TransactionFilter.ListOrderIsStrictTotal | controller/transactioncontroller.ts:140 | the listing order (date descending, then id descending) is a strict total order on rows with distinct ids |
| TransactionStore.FindCategory | controller/transactioncontroller.ts:43-48 | the lookup on (name, user) finds a category with that name and owner, or reports that none exists |
| TransactionStore.ConnectOrCreate | controller/transactioncontroller.ts:41-56 | connect-or-create keeps every existing category in place and adds at most one; an added category has the requested name and owner and is the one linked |
| TransactionStore.ConnectOrCreateLinks | controller/transactioncontroller.ts:41-56 | connect-or-create links to the user's existing category of that name and leaves the categories alone; otherwise it adds exactly one category with the row's type, the placeholder icon and colour |
| TransactionStore.ConnectOrCreateKeepsConstraints | controller/transactioncontroller.ts:41-56 | connect-or-create keeps category ids sequential and (name, user) unique |
| TransactionStore.ConnectOrCreateTwice | controller/transactioncontroller.ts:41-56 | a second row with the same category name, whatever its type, creates nothing and links to the same category |
| TransactionStore.Store.constructor | controller/transactioncontroller.ts:16-69 | an empty store satisfies the store's invariant |
| TransactionStore.Store.Create | controller/transactioncontroller.ts:16-69 | a falsy user id throws and changes nothing; otherwise one row is added under the next id, linked by connect-or-create, dated by the body or now, with answer 201 and the success message |
| TransactionStore.ApplyPatch | controller/transactioncontroller.ts:178-188 | an update keeps the row's id and owner |
| TransactionStore.EmptyPatchIsIdentity | controller/transactioncontroller.ts:178-188 | a patch with no fields, or only falsy amount, date and category id, leaves the row unchanged |
| TransactionStore.ApplyPatchIdempotent | controller/transactioncontroller.ts:178-188 | applying the same patch twice is applying it once |
| TransactionStore.ApplyPatchFrame | controller/transactioncontroller.ts:178-188 | each field absent from the patch keeps the row's value, and so does an amount, date or category id supplied as 0 or empty, whatever else the patch holds; each present truthy field takes the patch's |
| TransactionStore.Store.Update | controller/transactioncontroller.ts:150-198 | update never throws: a missing user or a bad category gives the generic error, a row that is absent or someone else's gives the not-found error, and both leave the store unchanged; otherwise only that row changes, to the patched row |
| TransactionStore.Store.Delete | controller/transactioncontroller.ts:200-223 | a missing user throws; the user's own row is removed and nothing else; any other id answers 404 and removes nothing |
| TransactionStore.SameNewCategoryTwice | controller/transactioncontroller.ts:41-56 | two creates with one new category name leave exactly one category, shared by both rows |
| TransactionStore.CrossUserDelete | controller/transactioncontroller.ts:209-222 | deleting another user's row answers 404 and the row stays |
| Dashboard.DateFilter | controller/dashboradcontroller.ts:21-29 | the dashboard's date range exists exactly when both dates are non-empty; it ends at the end of the last local day |
| Dashboard.SumOrZero | controller/dashboradcontroller.ts:47-49 | a null summed amount reads as 0, and a present sum is taken as it is |
| Dashboard.TotalOf | controller/dashboradcontroller.ts:47-49 | a total is the sum of the first group of that type, 0 when its sum is null, and 0 when there is no such group |
| Dashboard.CategoryIds | controller/dashboradcontroller.ts:70-72 | the looked-up ids are exactly the non-null category ids of the groups |
| Dashboard.CategoryIdsAppend | controller/dashboradcontroller.ts:70-72 | collecting ids commutes with concatenating the groups |
| Dashboard.NameFor | controller/dashboradcontroller.ts:92-98 | a slice is named after the first category with its id, or the uncategorised label when none matches or the name is empty; it is never empty |
| Dashboard.PieChart | controller/dashboradcontroller.ts:90-101 | one slice per expense group, in order, with the group's name and its sum (0 for null) |
| Dashboard.GetSummary | controller/dashboradcontroller.ts:8-107 | a missing user throws the unauthorized error; for a signed-in user the answer is thrown exactly when one of the three store calls fails, and then it is the generic error, so no partial answer is returned; a summary's balance is income minus expense |
| Dashboard.GetSummaryAssembles | controller/dashboradcontroller.ts:83-103 | when every store call answers, the summary holds the two totals and the pie chart has one slice per expense group, built from the looked-up names |
| Dashboard.QueriesShareFilter | controller/dashboradcontroller.ts:34-68 | both groupings use the same user and date filter, only the breakdown is limited to expenses and asked for in descending order of sum, and the answer depends on the store only through the three calls |
| Dashboard.PieChartNonIncreasing | controller/dashboradcontroller.ts:63-67 | groups sorted by sum, descending, give slices whose totals never increase |
| Dashboard.FoodExample | controller/dashboradcontroller.ts:83-103 | 100 income and one 50 expense in "Food" give totals 100 and 50, balance 50, and one "Food" slice of 50 |
| Routes.BearerToken | router/transactionrouter.ts:16 | the token is the text after "Bearer " up to the next space, and holds no space |
| Routes.Derive | router/transactionrouter.ts:8-26 | an empty header or one without the "Bearer " prefix is refused with 401 and the sign-in message; otherwise the user is admitted exactly when the token verifies, with the token's claims, and refused with the bad-token message when it does not |
| Routes.BearerTokenRoundTrip | router/transactionrouter.ts:16 | a space-free token put after "Bearer " is read back unchanged |
| Routes.DoubleSpaceGivesEmptyToken | router/transactionrouter.ts:16 | a second space after "Bearer" yields the empty token |
| Routes.DeriveAdmitsVerifiedProfile | router/Dashboard.ts:12-30 | a header carrying a valid token admits exactly the token's claims |
| Routes.CheckCreate | router/transactionrouter.ts:28-37 | the create body is accepted exactly when title and category name are non-empty, the amount is at least 1 and the type is an enum value |
| Routes.CheckCreateRoundTrip | router/transactionrouter.ts:28-37 | the schema accepts the raw form of every valid body and gives that body back unchanged, and accepts nothing else |
| Routes.UpdateValid | router/transactionrouter.ts:44-57 | every field of the update body is optional; an empty title or category, an amount below 1, or a type outside the enum is refused |
| Routes.CheckUpdate | router/transactionrouter.ts:44-57 | the update body is accepted exactly when each present field meets its constraint; the patch carries the body's title, amount, date and note unchanged and its type as the enum value of that name, and never a category id |
| Routes.EmptyUpdateChangesNothing | router/transactionrouter.ts:44-57 | an empty update body is accepted and leaves the row unchanged |
| Routes.IdParam | router/transactionrouter.ts:41-43 | the `:id` parameter is accepted exactly when it is non-blank and reads as a number, and it is that number |
| Routes.IdParamDigits | router/transactionrouter.ts:41-43 | a digit string, leading zeros included, with or without a leading "+", is accepted as its decimal value |
| Routes.IdParamShowNat | router/transactionrouter.ts:60-62 | the decimal form of a natural number is accepted as that id |
| Routes.DashQueryOf | router/Dashboard.ts:31-36 | the dashboard query passes on exactly the two date fields that are present |
| Routes.DashQueryIgnoresOtherKeys | router/Dashboard.ts:31-36 | keys other than the two dates have no effect on the query |
| ErrorHandler.OnError | src/index.ts:10-47 | a validation error gives 400 with its message; otherwise the two error classes give 400 and 401 with their message; a plain parse error gives 400 and a plain unknown-route error 404, each with its fixed status, type and message body; a plain error with any other code is left to the framework |
| ErrorHandler.ClassBeatsCode | src/index.ts:17-30 | a bad-request or authentication error keeps its class's answer whatever code other than validation it arrives with |
| ErrorHandler.GuardRefusalAnswers401 | src/index.ts:24-30 | every refusal of the guard reaches the client as 401 with the guard's message |
| ErrorHandler.PlainErrorsDeferred | src/index.ts:10-47 | the handlers' plain errors are left to the framework's default answer |

## Left out

- The sign-up and sign-in routes are not part of this model. Password hashing and token signing are external libraries; token verification is a parameter of `Routes.Derive`.
- The database is an external service. The listing and the dashboard queries are parameters that give back rows or a failure. `TransactionStore.Store` stands in for the transaction and category tables only.
- Filtering rows by date and ordering them are done by the database. The model gives the filter's meaning (`TransactionFilter.Matches`) and the order's properties, not a query engine.
- Dashboard.PieChartNonIncreasing: takes the descending order by sum that the breakdown query asks of the database as a precondition; the model does not sort.
- Dates are opaque instants. Parsing a date string, the current time, start and end of day and the local time zone are parameters (`Calendar`, `Clock`, `parseDate`, `now`).
- These date parameters are total, so an unreadable date string always gives some instant. In the source such a string gives an invalid date, which the database rejects. `create` then rethrows (controller/transactioncontroller.ts:38, 65-67). `update` gives its generic error (lines 184, 191-196). `getAll` fails earlier, in the time-zone conversion of the dates (lines 91-92): the conversion of an invalid date throws before the store is called and outside the `try` of lines 130-147, so the error reaches the central handler, which leaves it to the framework, instead of becoming the fetch error. `getSummary` passes the invalid dates to the grouping queries, which reject them, so it throws its generic error (controller/dashboradcontroller.ts:23-26, 104-106). The model does not capture these failures; in it, such requests succeed.
- Ids are unbounded integers. In the source they are JavaScript numbers checked against a 32-bit integer column, so an id such as "3000000000" passes the filter but makes the database reject the query. The model does not capture that failure.
- TransactionFilter.GetAll: the store call's arguments do not carry the listing's request to include each row's category name (controller/transactioncontroller.ts:133-139). The rows are modelled without it.
- Text.JsNumber: models `Number` on decimal integers with an optional sign only; hexadecimal, exponent and fractional forms and `Infinity` are not modelled.
- Text.Trim: `Text.IsSpace` covers only a subset of the white space JavaScript's `trim` removes (space, tab, line breaks, form feed, vertical tab, no-break space, byte-order mark); the other Unicode space separators and the line and paragraph separators are not modelled, and `Text.JsNumber` inherits that subset.
- Amounts are real numbers; floating-point rounding of sums and the conversion of the database's decimal type are not modelled.
- Routes.CheckCreate: `t.Numeric` also accepts numeric strings for `amount`; the model receives the amount already as a number.
- Routes.CheckUpdate: the update body's `amount` is the same `t.Numeric` (router/transactionrouter.ts:48-50), so numeric strings are not modelled there either; the model receives the amount already as a number.
- Routes.IdParam: the delete route declares `t.Number` rather than `t.Numeric`; both are modelled by the same conversion.
- Routes.CheckUpdate: assumes the framework drops undeclared fields from the body. The schema declares `category` while the handler reads `categoryId`, so a category can never be changed through the route. `TransactionStore.Store.Update` models the handler as written and does act on a category id.
- TransactionStore.Store.Create: takes a present user. A missing `user` would fail in the source before the id check; the guard never lets that happen.
- TransactionStore.Store.Create: never fails once the user id is truthy. In the source the insert can also fail and is rethrown: a user id with no user row (there is no users table in the model), an unreadable date (see above), or any other database error.
- TransactionStore.Store.Update: of the store failures the source can meet, only a category id with no category is modelled. Other database failures would give the same generic error and leave the store unchanged.
- TransactionStore.Store.Delete: in the source every database failure of the delete answers 404, not only a missing row. The store has no other failure, so only the missing or foreign row is modelled.
- The category listing handler and the server start-up code are outside the modelled core. Console logging is left out.
- The dashboard code reads only the two dates of its query: it has no type or category filter. It returns no colour per pie-chart slice. It moves the end date to 23:59:59.999 in the server's local time, not in a fixed zone. The model does the same.

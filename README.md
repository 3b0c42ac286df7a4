# Finance tracker ledger model

A Dafny model of the server-side core of a personal finance tracker. Users keep
income and expense transactions filed under their own categories and set monthly
spending budgets per expense category. The model covers:

- the validation guards (`lib/validation.js`);
- the data-access helpers: the three readers and the two sums (`lib/db.js`);
- the summary endpoint, with totals, balance and the per-category breakdown;
- the budget progress card: percentage, thresholds, bar and the remaining line;
- the transaction, category and budget endpoints, with their reads and writes;
- registration, with its checks, the user insert and the eight default categories.

The database is the class `Store.Database`, with one `seq` field per table
(`users`, `categories`, `transactions`, `budgets`). The insert and update methods
reassign these fields. `Store.Consistent` collects the facts every handler keeps:

- unique ids in every table;
- unique e-mails;
- unique (user, name, type) category triples and (user, category, month) budget triples;
- positive amounts and limits;
- every transaction filed under a category of its own user and type;
- every budget set on an expense category of its own user.

Each write-handler is a method that requires `Valid()` and ensures it again. Its
`ensures` give the reply and the new tables for every branch.

A query of the hosted database is modelled as filter, then sort, then take:

- `Query.Where` keeps the rows that meet every `.eq`/`.gte`/`.lte` clause;
- `Query.SortBy` is `.order`, a sort on a key of strings;
- `Query.Take` is `.limit`;
- `Query.Single` is `.single()`, which finds a row only when exactly one matches.

Modelling choices:

- **Caller.** The verified token is `auth: Option<Id>`.
- **Passwords.** Hashing is a function parameter `hash`.
- **The current day.** "Today" is a `YYYY-MM-DD` parameter.
- **Amounts.** Amounts are `real`. "At most two decimals" means `amount * 100` is a whole number.
- **Dates and months.** These are strings compared code point by code point. This is an assumption about the
  database's collation, which the source does not show; the same order is assumed for `.order('name')`.
- **Ids.** The database generates ids, and the handlers never see how. The model numbers a new row with
  `Query.FreshId`, a positive number above every id of its table. A missing or falsy id in a JSON body
  (including 0) is `None`. The `categoryId` of the query string of `GET /api/transactions` is a string, so
  "0" there is a filter, `Some(0)`, that no stored row meets.
- **Store failures.** Each failed write or list fetch is a boolean parameter. The five `.single()` lookups keep
  only `data` and have no such flag (see "Left out").
- **Missing fields.** A missing string field is `""`; a missing number or id is `None`.

Where the route handlers and the validation module disagree, the model follows
the handlers as written. Lemmas show each disagreement on a concrete input:

- `POST /api/budgets` does not call `validateBudget`, so it accepts any non-empty
  month, such as "2024-1". It also reports a limit of 0 as a missing field.
- `POST /api/categories` does not call `validateCategory`, so it accepts names
  longer than 50 characters.
- E-mails are compared exactly as given, so "Ann@example.com" does not block
  "ann@example.com".

## Model

| member | source | states |
|---|---|---|
| Validation.ValidateEmail | lib/validation.js:1-4 | true exactly for a run of characters that are neither white space nor '@', then '@', a run, '.', and a run |
| Validation.EmailShapeAt | lib/validation.js:1-4 | with the first '@' at i, the e-mail pattern matches iff a non-empty run precedes it and a run holding an inner '.' follows it |
| Validation.ValidatePassword | lib/validation.js:6-14 | passes iff the password has at least 6 characters; otherwise fails with the too-short message |
| Validation.ValidateTransaction | lib/validation.js:16-58 | for each of the eight errors, the error is reported iff every earlier check passes and that one fails, in the order amount > 0, amount <= 999999.99, two decimals, type, category, description, date present, date not after today; passes iff all eight hold |
| Validation.CentsHaveTwoDecimals | lib/validation.js:27-30 | whole amounts and amounts in whole cents pass the decimal check |
| Validation.AmountExamples | lib/validation.js:23-30 | 1000000 is too large; 10.999 has too many decimals |
| Validation.TomorrowIsFuture | lib/validation.js:48-55 | a payload dated the day after today fails as a future date |
| Validation.TomorrowLaterThanToday | lib/validation.js:48-55 | "2024-05-11" is later than "2024-05-10" |
| Validation.TodayIsAccepted | lib/validation.js:48-57 | the same payload dated today passes |
| Validation.BlankDescriptionIsMissing | lib/validation.js:40-42 | a description of white space only fails as "Description is required" |
| Validation.SampleIsWellFormed | lib/validation.js:19-42 | a payload of 10.5 with a description meets the amount and description checks, whatever its date |
| Validation.ValidateBudget | lib/validation.js:60-81 | category, positive limit, month present, month of shape `\d{4}-\d{2}`, in that order; each error iff the earlier checks pass and that one fails |
| Validation.MonthShapeExamples | lib/validation.js:75-78 | "2024-13" and "2024-01" pass, "2024-1" fails the month format |
| Validation.ValidateCategory | lib/validation.js:83-99 | blank name, then an untrimmed name longer than 50, then the type; each error iff the earlier checks pass and that one fails |
| Validation.UntrimmedLengthCounts | lib/validation.js:86-92 | a name that trims to 49 characters, padded to 51, is too long |
| Text.TrimStart | lib/validation.js:40 | the result is a suffix of the input; everything dropped is white space; the result does not start with white space |
| Text.TrimEnd | lib/validation.js:40 | the result is a prefix of the input; everything dropped is white space; the result does not end with white space |
| Text.Trim | lib/validation.js:40 | `trim()` as `TrimEnd(TrimStart(s))`; described by `TrimEmptyIffAllSpace`, `TrimHasNoOuterSpace` and `TrimIdempotent` and by the two contracts above |
| Text.TrimEmptyIffAllSpace | lib/validation.js:40-42 | `trim()` gives "" iff the string is all white space |
| Text.TrimHasNoOuterSpace | app/api/categories/route.js:122 | a trimmed name neither starts nor ends with white space |
| Text.TrimIdempotent | app/api/categories/route.js:122 | trimming twice is trimming once |
| Text.StrLeReflexive | lib/db.js:67-73 | the date order is reflexive |
| Text.StrLeAntisymmetric | lib/db.js:67-73 | the date order is antisymmetric |
| Text.StrLeTransitive | lib/db.js:67-73 | the date order is transitive |
| Text.StrLeTotal | lib/db.js:67-73 | the date order is total |
| Text.StrLeCommonPrefix | lib/db.js:151-161 | a common prefix does not change the order of two strings |
| Text.StrLeDivergesInPrefix | lib/db.js:151-161 | two bounds that agree up to where they first differ from a date compare with it alike |
| Schema.ParseRole | app/api/auth/register/route.js:58-63 | a role is accepted iff it is exactly "user" or "admin", and its name is the given string |
| Schema.JoinedName | app/api/transactions/route.js:112 | a joined name other than 'Unknown' is the name of a category with that id; with no such category it is 'Unknown'; with unique category ids, a category with that id gives its own name, or 'Unknown' when that name is empty |
| Query.Filter | lib/db.js:126-132 | never longer than its input |
| Query.FilterCount | lib/db.js:126-132 | every row's count is kept when the predicate holds and is 0 otherwise |
| Query.FilterMembers | lib/db.js:126-132 | a row is in the result iff it is in the input and meets the predicate |
| Query.FilterOrder | app/api/summary/route.js:81 | the result is a subsequence of the input |
| Query.FilterAppend | lib/db.js:126-132 | filtering distributes over concatenation |
| Query.FilterAll | lib/db.js:126-132 | when every row meets the predicate, nothing is dropped |
| Query.FilterNone | lib/db.js:126-132 | when no row meets it, nothing is kept |
| Query.Where | lib/db.js:23-32 | the rows meeting every clause, each with its count in the table |
| Query.Single | app/api/transactions/route.js:193-198 | a row is found only when it is the one row that matches; "none found" means no row matches or several do |
| Query.SingleFindsUnique | app/api/categories/route.js:118-126 | when at most one row can match, nothing is found iff no row matches |
| Query.KeyedAtMostOne | app/api/budgets/route.js:180-186 | a lookup by a unique key matches at most one row |
| Query.DistinctKeysAppend | app/api/categories/route.js:134-142 | a row whose key is new keeps the keys unique |
| Query.DistinctKeysConcat | app/api/auth/register/route.js:115 | two batches with unique keys and no key in common keep the keys unique |
| Query.FreshId | app/api/transactions/route.js:215-226 | the model's id for a new row is positive and greater than every id in the table |
| Query.SortBy | lib/db.js:75 | `.order(...)`: the result is sorted on the key, ascending or descending, and is a permutation of the input |
| Query.Take | app/api/transactions/route.js:74-76 | `.limit(n)`: the first min(n, length) rows |
| Query.TakeSorted | app/api/transactions/route.js:72-76 | a limited sorted result is still sorted and holds no row the full result lacks |
| Query.KeyLeTotal | lib/db.js:75 | the ordering of sort keys is total |
| Query.KeyLeTransitive | lib/db.js:75 | the ordering of sort keys is transitive |
| Db.SumAmounts | lib/db.js:165-168 | a sum of non-negative amounts is non-negative |
| Db.SumAppend | lib/db.js:165-168 | the sum of two batches is the sum of their sums |
| Db.SumPermutation | lib/db.js:163-168 | the sum does not depend on the order in which the rows come back |
| Db.SumFilterMonotone | lib/db.js:154-168 | with no negative amounts, a narrower filter sums to no more |
| Db.KindTotal | lib/db.js:126-132 | the sum of one type's rows: 0 when no row has that type, non-negative when no amount is negative; `KindPartition` and `AppendOfKind` relate the two totals to the rows |
| Db.KindPartition | lib/db.js:126-132 | when every row is income or expense, the income and expense totals add up to the sum of all rows |
| Db.AppendOfKind | lib/db.js:126-132 | one more row adds its amount to the total of its own type only |
| Db.CalculateBalance | lib/db.js:116-146 | fails with the store's error iff the store fails; otherwise balance = income − expenses, both non-negative when no amount is negative |
| Db.BalanceAfterAppend | lib/db.js:116-146 | an own income row raises income and balance by its amount; an own expense row raises expenses and lowers balance; any other row changes nothing |
| Db.Spending | lib/db.js:154-168 | the sum over the category's expense rows of the month: 0 when no row is one, non-negative when no amount is negative; `SpendingAfterAppend` pins it row by row |
| Db.GetCategorySpending | lib/db.js:148-175 | fails iff the store fails; otherwise 0 when no row is a spending row and non-negative when no amount is negative |
| Db.MonthRangeExact | lib/db.js:151-161 | for a `YYYY-MM-DD` date, the range `month-01`..`month-31` holds it iff its first seven characters are the month and its day lies within "01".."31" |
| Db.FirstDifference | lib/db.js:151-161 | two different strings of one length have a first differing index with equal prefixes before it |
| Db.SpendingAtMostExpenses | lib/db.js:148-168 | with no negative amounts, a category's spending in a month is at most the user's expense total |
| Db.SpendingAfterAppend | lib/db.js:154-168 | one more row raises the spending by its amount when it is the user's expense row of the category within the month, and leaves it unchanged otherwise |
| Db.TransactionQuery | lib/db.js:45-73 | the clauses built hold for a row iff it is the user's and meets each filter that is present |
| Db.SelectTransactions | lib/db.js:42-75 | exactly the matching rows, with their counts in the table, newest date first |
| Db.GetUserTransactions | lib/db.js:42-83 | a store error comes back as a failure with its message; otherwise the rows of `SelectTransactions` |
| Db.CategoryQuery | lib/db.js:23-30 | the clauses built hold iff the category is the user's and, when a type is given, of that type |
| Db.GetUserCategories | lib/db.js:20-40 | a failure on a store error; otherwise exactly the matching categories, ordered by name ascending |
| Db.BudgetQuery | lib/db.js:88-104 | the clauses built hold iff the budget is the user's and, when a month is given, of that month |
| Db.SelectBudgets | lib/db.js:85-106 | exactly the matching budgets, latest month first |
| Db.GetUserBudgets | lib/db.js:85-114 | a failure on a store error; otherwise the rows of `SelectBudgets` |
| Summary.CategoryTotal | app/api/summary/route.js:67-80 | the summed expense rows of one category: 0 when the category has none, non-negative when no amount is negative |
| Summary.Entries | app/api/summary/route.js:67-80 | one entry per fetched category, in order, with its id, name and expense total |
| Summary.ExpenseCategories | app/api/summary/route.js:57-61 | exactly the user's expense categories |
| Summary.Breakdown | app/api/summary/route.js:67-81 | a subsequence of the entries; every entry kept has a positive total; a category's entry is kept iff its total is positive |
| Summary.GetSummary | app/api/summary/route.js:19-93 | 401 without auth; 500 when the transactions fail; otherwise 200 with income and expenses as `calculateBalance` computes them, balance their difference, an empty breakdown when the categories fail, and otherwise every positive own expense category and nothing else, in fetched order |
| Summary.OtherKindsIgnored | app/api/summary/route.js:46-54 | a row of a type other than income or expense moves neither total nor the balance |
| Summary.TotalsCoverAllRows | app/api/summary/route.js:46-52 | when every row is income or expense, the two totals add up to the sum of the user's rows |
| Summary.ExampleRows | app/api/summary/route.js:46-81 | the example's rows split by user, type and category as expected |
| Summary.ExampleFilter | app/api/summary/route.js:46-81 | filtering the example rows keeps each row that meets the predicate, in order |
| Summary.ExampleSums | app/api/summary/route.js:46-81 | the example sums: 100, 55, 50 and 5 |
| Summary.ExampleCategories | app/api/summary/route.js:57-61 | the example's expense categories are A, B and C |
| Summary.ExampleBreakdown | app/api/summary/route.js:67-81 | the example breakdown is A = 50, B = 5, and the empty category C is dropped |
| Summary.WorkedExample | app/api/summary/route.js:46-81 | income 100 with expenses 40 and 10 in A and 5 in B gives balance 45 and breakdown A = 50, B = 5 |
| BudgetProgress.StatusOf | components/budgets/BudgetProgress.jsx:24-28 | Over budget iff percentage >= 100, Near limit iff 80 <= percentage < 100, On track iff percentage < 80 |
| BudgetProgress.GetStatusText | components/budgets/BudgetProgress.jsx:24-28 | the text of the status the thresholds assign |
| BudgetProgress.GetProgressColor | components/budgets/BudgetProgress.jsx:18-22 | the bar colour is the colour of the same status |
| BudgetProgress.StatusTextClass | components/budgets/BudgetProgress.jsx:36-43 | the status text's colour is the colour of the same status |
| BudgetProgress.ThresholdAt | components/budgets/BudgetProgress.jsx:8 | for a positive limit, percentage >= t iff spent × 100 >= t × limit |
| BudgetProgress.PercentageThresholds | components/budgets/BudgetProgress.jsx:8-28 | for a positive limit, 100 % means spent >= limit and 80 % means spent >= 0.8 × limit |
| BudgetProgress.Render | components/budgets/BudgetProgress.jsx:5-63 | a missing value counts as 0; percentage × limit = spent × 100 for a positive limit and 0 otherwise; remaining = limit − spent; status by spent against limit and 0.8 × limit; bar and text colours agree with the status; the bar is the smaller of the percentage and 100; "Remaining" iff remaining >= 0, else "Overspent"; the figure shown is \|remaining\| |
| BudgetProgress.CardExamples | components/budgets/BudgetProgress.jsx:8-58 | limit 100, spent 80: Near limit, 20 remaining; spent 120: Over budget, overspent by 20, bar at 100 |
| BudgetProgress.BoundaryCards | components/budgets/BudgetProgress.jsx:8-58 | spending exactly the limit reads Over budget beside Remaining 0; with no limit, spending reads On track beside Overspent |
| Store.OwnedCategory | app/api/transactions/route.js:193-198 | a category found has the id and the caller's user id; with unique ids, none is found iff no such category exists |
| Store.AddTransaction | app/api/transactions/route.js:215-226 | a row with a fresh id, a positive amount and a category of its user and type keeps the tables consistent |
| Store.AddCategory | app/api/categories/route.js:134-142 | a category with a fresh id, a known type and a free (user, name, type) triple keeps the tables consistent |
| Store.AddBudget | app/api/budgets/route.js:204-213 | a budget with a fresh id and a free triple, set on the user's expense category, keeps the tables consistent |
| Store.SetBudgetLimit | app/api/budgets/route.js:193-198 | a new positive limit on an existing budget keeps the tables consistent |
| Store.AddUser | app/api/auth/register/route.js:85-93 | a user with a fresh id and an unused e-mail keeps the tables consistent |
| Store.AddCategories | app/api/auth/register/route.js:115 | a batch whose ids and triples stay unique, of known types, keeps the tables consistent |
| Store.AddOwnerBatch | app/api/auth/register/route.js:104-115 | a batch owned by a user who has no categories yet, with fresh ids and distinct triples, keeps the tables consistent |
| Store.Database.NextUserId | app/api/auth/register/route.js:85-93 | the next user id is above every user id in every table |
| Store.Database.InsertTransaction | app/api/transactions/route.js:215-226 | appends one row with a fresh id and leaves the other tables as they were |
| Store.Database.InsertCategory | app/api/categories/route.js:134-142 | appends one row with a fresh id and leaves the other tables as they were |
| Store.Database.InsertCategories | app/api/auth/register/route.js:115 | appends the batch and leaves the other tables as they were |
| Store.Database.InsertUser | app/api/auth/register/route.js:85-93 | appends one user with the next user id and leaves the other tables as they were |
| Store.Database.InsertBudget | app/api/budgets/route.js:204-213 | appends one budget with a fresh id and leaves the other tables as they were |
| Store.Database.UpdateBudgetLimit | app/api/budgets/route.js:193-198 | changes only the limit of the one row and leaves every other row and table as it was |
| TransactionsRoute.FiltersSelect | app/api/transactions/route.js:71-92 | the filters the handler adds select exactly the caller's rows within the dates, of the category, and of the type when it is income or expense |
| TransactionsRoute.Format | app/api/transactions/route.js:105-114 | one view per row, in order, with the row's own fields copied; the name is 'Unknown' or that of a category with that id, and 'Unknown' when no category has that id; with unique category ids, a row whose category exists shows that category's name, or 'Unknown' when it is empty |
| TransactionsRoute.Limit | app/api/transactions/route.js:74-76 | without a limit all rows; with one, the first min(limit, length) rows |
| TransactionsRoute.Get | app/api/transactions/route.js:41-127 | 401 without auth; 500 on a store failure; otherwise 200 with the formatted first `limit` of exactly the selected rows, newest first |
| TransactionsRoute.Post | app/api/transactions/route.js:168-247 | 401; 400 with the validation message; "Category not found" unless the caller owns the category; type mismatch; 500 on a failed insert (each leaving the store unchanged); otherwise 201 with one row appended, carrying the token's user id and the body's fields, and the tables kept consistent |
| CategoriesRoute.Get | app/api/categories/route.js:19-56 | 401; 500 on a store failure; otherwise exactly the caller's categories, ordered by type and then name |
| CategoriesRoute.RequestError | app/api/categories/route.js:101-113 | "Category name is required" iff the name is blank; "Invalid category type" iff the name is not blank and the type is not income or expense; none iff neither |
| CategoriesRoute.RequestErrorAgreesUpToFifty | app/api/categories/route.js:101-113 | whatever `validateCategory` accepts, the handler accepts; up to 50 characters they agree, with the same message |
| CategoriesRoute.LongNameAccepted | app/api/categories/route.js:101-113 | a 51-character name passes the handler's checks but not `validateCategory` |
| CategoriesRoute.Duplicate | app/api/categories/route.js:118-131 | rejection means a row with the caller's id, the trimmed name and the type exists; with unique triples, rejection iff such a row exists |
| CategoriesRoute.OtherTypeIsNoDuplicate | app/api/categories/route.js:118-124 | a name the caller has only under one type is not a duplicate under the other |
| CategoriesRoute.FoodExamples | app/api/categories/route.js:118-124 | "Food" as income blocks "Food" as income but not as expense; " Food " collides with "Food" |
| CategoriesRoute.DuplicateInOne | app/api/categories/route.js:118-124 | against one row, a duplicate iff that row has the caller's id, the trimmed name and the type |
| CategoriesRoute.TrimFood | app/api/categories/route.js:122 | "Food" and " Food " both trim to "Food" |
| CategoriesRoute.Post | app/api/categories/route.js:88-163 | 401; the field errors; the duplicate error; 500 on a failed insert (each leaving the store unchanged); otherwise 201 with one row appended, with a fresh id, the caller's id, the trimmed name and the type |
| BudgetsRoute.Spent | app/api/budgets/route.js:56-68 | the sum over the handler's clause list `SpentClauses`: 0 when no row is a spending row, non-negative when no amount is negative; equal to the spending helper by `SpentIsCategorySpending` |
| BudgetsRoute.SpentClausesSelect | app/api/budgets/route.js:56-63 | the handler's own spending query (owner, category, expense, from the 1st to the 31st of the month) keeps exactly the user's expense rows of the category in the month |
| BudgetsRoute.SpentIsCategorySpending | app/api/budgets/route.js:56-68 | the sum over the handler's query equals what the spending helper in lib/db.js computes for the same user, category and month |
| BudgetsRoute.Views | app/api/budgets/route.js:54-80 | one view per budget, in order, with its fields and its spending in its month; the category name is 'Unknown' when no category has that id, and with unique category ids an existing category gives its name, or 'Unknown' when it is empty |
| BudgetsRoute.Get | app/api/budgets/route.js:19-93 | 401; 500 on a store failure; otherwise one view per budget of the caller, latest month first |
| BudgetsRoute.FieldsError | app/api/budgets/route.js:141-153 | "Missing required fields" iff a field is missing, the limit is 0 or the month is empty; "Budget limit must be positive" iff all are present and the limit is negative |
| BudgetsRoute.FieldsLooserThanValidateBudget | app/api/budgets/route.js:141-153 | whatever `validateBudget` accepts, the handler accepts |
| BudgetsRoute.ShortMonthAccepted | app/api/budgets/route.js:141-153 | "2024-1" passes the handler's checks but not `validateBudget` |
| BudgetsRoute.ZeroLimitIsMissing | app/api/budgets/route.js:141-146 | a limit of 0 is reported as a missing field |
| BudgetsRoute.Existing | app/api/budgets/route.js:180-186 | a row found has the (user, category, month) triple; with unique triples, none is found iff no row has it |
| BudgetsRoute.Upsert | app/api/budgets/route.js:180-217 | the table after the update-or-insert: it grows by at most one row, every budget of another triple keeps its place, and some row of the triple has the new limit; `UpsertUpdates`, `UpsertInserts`, `UpsertOneRowPerTriple` and `UpsertIdempotent` pin each branch |
| BudgetsRoute.UpsertUpdates | app/api/budgets/route.js:191-201 | with a budget for the triple, only that row changes, and only in its limit |
| BudgetsRoute.UpsertInserts | app/api/budgets/route.js:202-217 | without one, exactly one row with the four given fields and a fresh id is appended |
| BudgetsRoute.UpsertOneRowPerTriple | app/api/budgets/route.js:180-217 | afterwards ids and triples are still unique, and the triple's row carries the new limit |
| BudgetsRoute.UpsertIdempotent | app/api/budgets/route.js:180-217 | repeating the same upsert leaves the table as a single one does |
| BudgetsRoute.Post | app/api/budgets/route.js:128-238 | 401; the field errors; "Category not found" unless the caller owns it; the expense-only error; 500 on a failed save (each leaving the store unchanged); otherwise 201 with the saved row and the budgets table upserted |
| RegisterRoute.RequestError | app/api/auth/register/route.js:42-63 | the e-mail error iff the e-mail is malformed; then the password error; then "Invalid role" iff the role is not "user" or "admin"; none iff all three pass |
| RegisterRoute.EmailTaken | app/api/auth/register/route.js:67-79 | a hit means a user with exactly that e-mail exists; with unique e-mails, a hit iff one exists |
| RegisterRoute.EmailIsCaseSensitive | app/api/auth/register/route.js:68-72 | an account under "Ann@example.com" does not block "ann@example.com" |
| RegisterRoute.DefaultCategories | app/api/auth/register/route.js:104-113 | the eight seed rows, numbered from a fresh id; described by `DefaultCategoriesShape` |
| RegisterRoute.DefaultNamesDistinct | app/api/auth/register/route.js:104-113 | the eight default names are pairwise different |
| RegisterRoute.DefaultCategoriesShape | app/api/auth/register/route.js:104-113 | eight rows, all the new user's, with consecutive fresh ids and known types; Salary and Freelance are income and the other six expense; ids, names and triples are distinct |
| RegisterRoute.DefaultsFitBatch | app/api/auth/register/route.js:104-115 | the default rows meet the conditions of a fresh owner's batch |
| RegisterRoute.NewUserOwnsOnlySeeds | app/api/auth/register/route.js:104-115 | for a user who owned nothing before, the user's categories after the batch are exactly the batch |
| RegisterRoute.NewUserOwnsOnlyDefaults | app/api/auth/register/route.js:104-115 | after registration the new user's categories are exactly the eight defaults |
| RegisterRoute.Post | app/api/auth/register/route.js:38-153 | 400 with the first field error; "User already exists"; 500 on a failed user insert (each without a cookie and leaving the store unchanged); otherwise the user is stored with hash(password), the eight defaults are appended unless their batch insert fails, and the reply is 201 with id, e-mail and role and a seven-day http-only "lax" token cookie over those claims |

## Left out

- Token signing with `jose` and the cookie's `secure` flag: these depend on the runtime environment. The token is the claims it is signed over.
- bcrypt's salt and cost factor: the hash is a function parameter.
- The database client, its network calls and its join mechanics: the tables are in memory and a join is a lookup by id.
- Floating-point arithmetic, `parseFloat` and the `amount.toString()` decimal test. Amounts are exact reals, and the decimal rule is stated on the value.
- JavaScript `Date` parsing and time zones: "today" is a date string, and a date is in the future iff it sorts after it.
- Validation.ValidateTransaction: only dates written `YYYY-MM-DD` are modelled faithfully, and only on a server that runs at UTC or east of it. `new Date("2024-05-11")` is midnight UTC, which west of UTC falls before the local end of 2024-05-10, so there the source accepts tomorrow's date that `Validation.TomorrowIsFuture` rejects. The source accepts a date `new Date` cannot parse ("abc" is an Invalid Date, and every comparison with it is false) and a date with a time on today ("2024-05-10T10:00", which is before the end of today that the source compares against). The model sorts both after today and rejects them as a future date.
- `Intl.NumberFormat` currency formatting: the card's figures are modelled, not their text.
- `Promise.all` in `GET /api/budgets`: the per-budget queries are a sequential map.
- The check-then-act races of the budget upsert, the duplicate checks and the registration: each request is modelled as atomic.
- The `|| 0` fallback when the per-budget spending query fails: the spending query is modelled as always succeeding.
- `created_at` columns: clock values that no check reads.
- `getUser` and `app/api/transactions/[id]/route.js`: these are not part of this model.
- The React components and pages, including the client-side filtering of categories by type.
- `parseInt` of a non-numeric `limit`: the limit parameter is a count or absent.
- The lengths JavaScript measures in UTF-16 code units: strings are sequences of code points.
- The `catch` paths that answer 500 "Internal server error" on an exception, and the logging.
- The order of the query clauses in `GET /api/transactions` (dates, category, type) differs from that of `getUserTransactions`; the model builds the clauses in the helper's order, which selects the same rows because the clauses are a conjunction.
- Failed `.single()` lookups. The source keeps only their `data`, so a failed lookup reads as "no row". The five lookups are: the duplicate category (app/api/categories/route.js:117-123), the category ownership of `POST /api/budgets` (app/api/budgets/route.js:158-163), the existing budget (app/api/budgets/route.js:181-186), the existing user (app/api/auth/register/route.js:68-72) and the category ownership of `POST /api/transactions` (app/api/transactions/route.js:193-198). The model treats a failed lookup as impossible, so each lookup sees the whole table. For the two ownership lookups a failure would only give a 400 "Category not found". For the three duplicate checks it would let the insert go ahead and store a second category with the same (user, name, type), a second budget for the same (user, category, month) or a second user with the same e-mail. The uniqueness that `Store.Consistent` carries through every `Post` therefore holds only when these lookups succeed; the source shows no database constraint that would keep it otherwise.
- The error of the default categories' batch insert, which registration ignores: a failed batch is the flag `seedFails` and writes nothing, and the reply does not depend on it.

# CashFlow transactions core, in Dafny

A model of the sequential logic of the CashFlow personal finance tracker:

- **Input schemas** (`lib/validations.ts`): `createTransactionSchema`, which turns the
  string payload of the transaction form into a typed record (a positive amount, a
  description of 1 to 255 characters, one of the two types, a date), the stored-shape
  `transactionSchema`, and the account schemas `loginSchema` and `registerSchema`.
  Every schema is a function from the loosely typed input to either the record or the
  list of issues, one per failing member, in key order (modules `Validations`,
  `NumberParse` for `Number(val)`, `Calendar` for `Date.parse`, `Digits`).
- **The transactions API** (`app/api/transactions/route.ts`): the `GET` and `POST`
  handlers as methods of `TransactionsRoute.TransactionStore`, a class whose `rows`
  field is the table of transactions. The session arrives as `Option<UserId>`.
  Whether the database call throws is the parameter `storeFails`.
- **The dashboard** (`app/dashboard/page.tsx`): income, expense and net totals as
  the filter/reduce the page computes, the net-balance colour, and the page state
  that `fetchTransactions` and the session effect change (class `Dashboard.DashboardPage`).
- **The transaction form** (`components/transaction-form-card.tsx`): the `onSubmit`
  state machine as class `TransactionForm.TransactionFormCard`. The handler is split
  at its `await fetch` into `Submit` and `Settle`, so the state shown while the
  request is in flight can be observed. A `calls` log records the `fetch`, `reset`
  and `onTransactionAdded` calls, in order.

Amounts are exact reals; dates are calendar days. The description's maximum-length
message says "less than 255 characters", but the code accepts exactly 255. The model
follows the code.

## Model

| member | source | states |
|---|---|---|
| Validations.AsString | lib/validations.ts:25 | `z.string()` accepts exactly a present string member and passes it through |
| Validations.CheckAmount | lib/validations.ts:25-27 | the amount is accepted iff it is a string whose `Number(val)` is not NaN and is above 0; the output is that number; otherwise the message is "Amount must be a positive number" |
| Validations.NotPositiveRejected | lib/validations.ts:25-27 | a string that reads as a number not above 0 is rejected with the amount message |
| Validations.ZeroAmountsRejected | lib/validations.ts:25-27 | "0", "0.00" and "" are rejected with the amount message |
| Validations.NonNumericAmountRejected | lib/validations.ts:25-27 | an amount with a character other than a digit or a point (a leading sign aside) reads as NaN and is rejected with the amount message |
| Validations.NegativeAmountRejected | lib/validations.ts:25-27 | no amount written with a leading minus sign is accepted |
| Validations.CentsAmountAccepted | lib/validations.ts:25-27 | a positive two-decimal amount is accepted as exactly the number it denotes |
| Validations.CheckDescription | lib/validations.ts:28 | a description is accepted iff its length is between 1 and 255, and then passes through unchanged |
| Validations.DescriptionBoundaries | lib/validations.ts:28 | "" fails with "Description is required", 256 characters fail with the too-long message, and lengths 1 and 255 pass |
| Validations.CheckType | lib/validations.ts:29 | the type is accepted iff it is exactly "INCOME" or "EXPENSE", and the result is the type of that name |
| Validations.TypeNameAccepted | lib/validations.ts:29 | every type is accepted under its own wire name |
| Validations.CheckDate | lib/validations.ts:30-32 | the date is accepted iff it is a string `Date.parse` reads; the output is the parsed date; otherwise the message is "Invalid date format" |
| Validations.DateRoundTrip | lib/validations.ts:30-32 | an accepted date string is the rendering of its date, and every date's rendering is accepted as that date |
| Validations.IssuesOf | lib/validations.ts:24-33 | a member contributes one issue at its own path exactly when its check fails |
| Validations.FailingFields | lib/validations.ts:24-33 | no member fails exactly when all four member checks pass |
| Validations.PathsOfFour | lib/validations.ts:24-33 | the paths of the concatenated issue lists are the union of each member's paths |
| Validations.ParseFields | lib/validations.ts:24-33 | an object is accepted iff no member fails; the record's amount is `Number(val)` of the amount string, its date the date `Date.parse` reads, and its description and type the members given; on failure the issue paths are exactly the failing members |
| Validations.CreateTransactionSchema | lib/validations.ts:24-33 | a payload that is not an object is rejected with one issue at the root; an object is decided member by member as above; a rejection always reports at least one issue |
| Validations.OneBadFieldRejects | lib/validations.ts:24-33 | one failing member rejects the whole object, and an issue names that member |
| Validations.PayloadRoundTrip | lib/validations.ts:24-33 | the JSON payload of any well-formed record parses back to exactly that record |
| Validations.TransactionSchema | lib/validations.ts:17-22 | a stored record is accepted iff its amount is above 0, its description has 1 to 255 characters and its date is a day that exists, in any year; it then passes through unchanged, and a rejection lists at least one issue |
| Validations.CreatedSatisfiesTransactionSchema | lib/validations.ts:17-33 | every output of `createTransactionSchema` meets `transactionSchema` (positive amount, 1 to 255 characters, valid date) |
| Validations.CheckMinLength | lib/validations.ts:5 | `.min(n)` accepts exactly strings of at least `n` characters and passes them through |
| Validations.CheckEmail | lib/validations.ts:4 | `.email()` accepts exactly the strings the address predicate accepts |
| Validations.LoginSchema | lib/validations.ts:3-6 | login data is accepted iff the email is an address and the password has at least 6 characters; rejections list issues |
| Validations.RegisterSchema | lib/validations.ts:8-12 | registration is accepted iff the name has at least 2 characters and the login rules hold; rejections list issues |
| Validations.ShortPasswordRejected | lib/validations.ts:5-11 | a password shorter than 6 characters fails both account schemas |
| Validations.ShortNameRejected | lib/validations.ts:9 | a name shorter than 2 characters fails registration |
| Validations.RegisteredCanLogIn | lib/validations.ts:3-12 | credentials that register also log in |
| NumberParse.DotIndex | lib/validations.ts:25 | the split point of a literal is its first decimal point |
| NumberParse.ParseNumber | lib/validations.ts:25-27 | `Number(val)`: "" reads as 0; a leading "+" or "-" signs the unsigned literal after it; anything else is read as an unsigned literal; a positive result never starts with "-" |
| NumberParse.ZeroReadsAsZero | lib/validations.ts:25-27 | "0" and "0.00" both read as zero |
| NumberParse.ParseUnsigned | lib/validations.ts:25 | an unsigned literal is read (not NaN) iff it is non-empty, is not a lone ".", and every character except its first point is a digit; its value is never negative |
| NumberParse.ParseUnsignedPointed | lib/validations.ts:25 | a literal with a point and at least one digit on either side of it ("12.5", "12.", ".5") reads as its whole digits plus its fraction digits |
| NumberParse.NonLiteralsAreNaN | lib/validations.ts:25 | "abc", "1,5", ".", "1.2.3" and "-" read as NaN |
| NumberParse.ParseUnsignedWhole | lib/validations.ts:25 | a literal without a point reads as the whole number its digits spell |
| NumberParse.ParseFormatCents | lib/validations.ts:25-27 | the two-decimal rendering of an amount reads back as that amount |
| NumberParse.NegatedNotPositive | lib/validations.ts:25 | a leading minus sign never yields a positive number |
| Digits.PadDigitsValue | lib/validations.ts:30-32 | a zero-padded rendering reads back as the number it renders |
| Digits.DigitsValuePad | lib/validations.ts:30-32 | a digit string is the padded rendering of its own value |
| Calendar.DaysInMonth | lib/validations.ts:30 | months have 28 to 31 days, with 29 exactly for February of a leap year |
| Calendar.ParseDate | lib/validations.ts:30 | every date the strict "YYYY-MM-DD" reading of `Date.parse` accepts is a real calendar day |
| Calendar.ParseFormatDate | lib/validations.ts:30-32 | every valid date is read back from its "YYYY-MM-DD" rendering |
| Calendar.FormatParseDate | lib/validations.ts:30-32 | every accepted date string is the rendering of the date it yields |
| TransactionsRoute.OwnedBy | app/api/transactions/route.ts:14-17 | `where: { userId }` keeps each of the user's rows as often as the store holds it, and no row of another user |
| TransactionsRoute.Insert | app/api/transactions/route.ts:18-20 | inserting into a newest-first list keeps it newest first and adds exactly that row |
| TransactionsRoute.SortByDateDesc | app/api/transactions/route.ts:18-20 | `orderBy: { date: 'desc' }` yields a newest-first permutation of its input |
| TransactionsRoute.ListFor | app/api/transactions/route.ts:14-21 | `findMany` returns a newest-first list holding each of the user's rows as often as the store does, and no other row |
| TransactionsRoute.TransactionStore.Get | app/api/transactions/route.ts:6-31 | no session gives 401; a failing store gives 500 "Failed to fetch transactions"; otherwise 200 with exactly the caller's rows, newest first; the store is not changed |
| TransactionsRoute.TransactionStore.Post | app/api/transactions/route.ts:33-70 | no session gives 401; a body that is not JSON or a failing store gives 500 "Failed to create transaction"; an invalid body gives 400 "Invalid data" with the issues; in all these cases the store is unchanged; a valid body appends exactly one row, holding the validated values and the caller's id, and returns it with 201; the store stays well formed |
| TransactionsRoute.ListTwice | app/api/transactions/route.ts:14-23 | two lists with no create in between give identical responses |
| TransactionsRoute.CreateThenList | app/api/transactions/route.ts:33-54 | a created transaction appears in its owner's next list |
| TransactionsRoute.OtherUsersRowInvisible | app/api/transactions/route.ts:14-17 | a row created by another user never changes what a user lists |
| TransactionsRoute.OwnedByAppend | app/api/transactions/route.ts:14-17 | the owner filter of an extended table is the old filter plus the new row if it is the user's |
| TransactionsRoute.CreatedRowListed | app/api/transactions/route.ts:14-20 | after a create, the owner's list is the old list with the new row added |
| TransactionsRoute.ListedNewestFirst | app/api/transactions/route.ts:18-20 | no listed row is dated before a row listed after it |
| TransactionsRoute.StoredRowsWellFormed | app/api/transactions/route.ts:41-52 | every row of a store that only `POST` has written has a positive amount, a description of 1 to 255 characters and a real date |
| TransactionsRoute.StoredListNewestFirst | app/api/transactions/route.ts:14-21 | a user's list from such a store is in calendar order, newest first |
| Calendar.DateKeyOrder | app/api/transactions/route.ts:18-20 | ordering rows by their date key is calendar order, and equal keys are equal dates |
| Dashboard.OfKindCount | app/dashboard/page.tsx:86 | the type filter keeps every transaction of the type as often as it occurs, and no other |
| Dashboard.FoldIsSum | app/dashboard/page.tsx:87 | the `reduce` from an accumulator adds the accumulator to the sum of the amounts |
| Dashboard.TotalIncome | app/dashboard/page.tsx:85-87 | total income is the sum of the amounts of the INCOME transactions |
| Dashboard.TotalExpenses | app/dashboard/page.tsx:89-91 | total expenses is the sum of the amounts of the EXPENSE transactions |
| Dashboard.NetBalance | app/dashboard/page.tsx:93 | the net balance is the row-by-row signed sum: incomes counted up, expenses counted down |
| Dashboard.NetBalanceColor | app/dashboard/page.tsx:175 | the balance is emerald iff income is at least expenses, and rose iff the signed sum is negative |
| Dashboard.EmptyTotals | app/dashboard/page.tsx:85-93 | all three totals of an empty list are 0 |
| Dashboard.IncomePlusExpensesIsSum | app/dashboard/page.tsx:85-91 | income plus expenses is the sum of all amounts |
| Dashboard.SignedSumIsIncomeMinusExpenses | app/dashboard/page.tsx:85-93 | the row-by-row signed sum is the INCOME sum less the EXPENSE sum |
| Dashboard.AppendOne | app/dashboard/page.tsx:85-91 | one more transaction raises its own total by its amount and leaves the other total unchanged |
| Dashboard.TotalsNotNegative | app/dashboard/page.tsx:85-91 | with positive amounts neither total is negative |
| Dashboard.StoredTotalsNotNegative | app/dashboard/page.tsx:85-91 | the totals of a user's list from a store that only `POST` has written are never negative |
| Dashboard.SumPermutation | app/dashboard/page.tsx:87 | the sum of amounts does not depend on row order |
| Dashboard.TotalsIgnoreOrder | app/dashboard/page.tsx:85-91 | the totals depend only on which rows are loaded, not on their order |
| Dashboard.ListedTotals | app/dashboard/page.tsx:85-91 | the totals of a user's sorted list are those of the user's rows in store order |
| Dashboard.WorkedExample | app/dashboard/page.tsx:85-93 | 100 of income with 30 and 20 of expenses gives totals 100, 50 and a balance of 50 |
| Dashboard.EffectOf | app/dashboard/page.tsx:60-66 | a settled session without a user redirects to /login; a user triggers a load; nothing happens otherwise |
| Dashboard.ViewOf | app/dashboard/page.tsx:68-93 | a pending session shows the spinner; a settled session without a user shows nothing; otherwise the page shows exactly the list's total income, total expenses, net balance and balance colour, with the balance equal to income minus expenses and emerald iff not negative |
| Dashboard.DashboardPage.constructor | app/dashboard/page.tsx:26-27 | the page starts with an empty list, loading, on the dashboard route, with no request sent |
| Dashboard.DashboardPage.FetchTransactions | app/dashboard/page.tsx:39-54 | loading always ends; the list is replaced only by an ok reply and otherwise kept |
| Dashboard.DashboardPage.HandleTransactionAdded | app/dashboard/page.tsx:56-58 | adding a transaction reloads the list as `fetchTransactions` does |
| Dashboard.DashboardPage.OnSessionChange | app/dashboard/page.tsx:60-66 | a redirect sends no request and changes no list; a user's session sends one request and the page then holds its result |
| TransactionForm.DefaultValues | components/transaction-form-card.tsx:33-38 | the default date is today's, and an untouched form fails local validation on its amount, description and type |
| TransactionForm.IssuesMessage | components/transaction-form-card.tsx:48 | the message of a failed local parse is empty iff there are no issues, and starts with the first issue's message |
| TransactionForm.TransactionFormCard.Disabled | components/transaction-form-card.tsx:217 | each of the six controls (both type radios, amount, description, date, submit, lines 105, 125, 153, 176, 198 and 217) is disabled iff `isSubmitting`, that is, exactly while a request is in flight |
| TransactionForm.TransactionFormCard.SubmitLabel | components/transaction-form-card.tsx:220 | the button reads "Adding..." iff `isSubmitting`, which under the form's invariant is exactly while a request is in flight, and "Add Transaction" otherwise |
| TransactionForm.ReplyErrorMessage | components/transaction-form-card.tsx:58-67 | a reply that is not ok fails with the server's `error` field, or "Failed to create transaction" when it is absent or empty; a body that is not JSON fails with the parser's own message |
| TransactionForm.OutcomeOf | components/transaction-form-card.tsx:58-67 | only an ok reply succeeds; a network failure or a reply that is not ok fails with its message |
| TransactionForm.ReplyOf | components/transaction-form-card.tsx:58 | the reply is ok exactly for a 2xx status |
| TransactionForm.TransactionFormCard.constructor | components/transaction-form-card.tsx:22-39 | a new form is idle, has no error, has sent nothing and holds the default values |
| TransactionForm.TransactionFormCard.Edit | components/transaction-form-card.tsx:147-155 | a disabled input ignores typing while a submission is in flight |
| TransactionForm.TransactionFormCard.Submit | components/transaction-form-card.tsx:43-56 | a click while submitting does nothing; otherwise the error is cleared; a local parse failure sends nothing, sets the error to the issues' message and ends submitting; a valid form sends one request with the inputs disabled and stays submitting |
| TransactionForm.TransactionFormCard.Settle | components/transaction-form-card.tsx:58-70 | success resets the values and calls `reset` then `onTransactionAdded`; failure sets the error and calls neither; submitting always ends |
| TransactionForm.SubmitToServer | components/transaction-form-card.tsx:43-70 | end to end, the form resets and notifies its parent exactly when the store gained one row; a locally valid submission by a signed-in user fails only when the store fails |

## Left out

- `Number(val)` is the decimal grammar only. The model takes an optional sign and digits with an optional fraction, and `""` is 0. Exponents, hexadecimal, `Infinity` and surrounding whitespace are read as NaN, although JavaScript accepts them.
- Calendar.ParseDate / Validations.CheckDate: a day past the end of its month (days 29 to 31, such as "2025-02-30") is rejected as NaN, so `POST` answers 400 "Invalid date format". Node's `Date.parse` checks only that the day is 1 to 31 and rolls it over into the next month ("2025-02-30" becomes 2025-03-02), so the handler answers 201. The form's date input never sends such a string; only a direct API call sees the difference.
- `Date.parse` is the strict date-only form "YYYY-MM-DD", with years 0 to 9999. Date-time strings, extended years and the lenient formats JavaScript engines also accept are read as NaN.
- Prisma's `Decimal` amounts are not modelled, so the dashboard's `Number(t.amount)` is the identity on exact reals. IEEE double summation and `toFixed(2)` rounding are left out for the same reason.
- Validations.CheckType / Validations.AsString / Validations.CreateTransactionSchema: when a member or the payload has the wrong JSON type, the issue carries a fixed message ("Expected 'INCOME' | 'EXPENSE'", "Expected string", "Expected object"). Zod's message also says which type it received.
- Validations.CheckEmail: the address grammar of `.email()` is the parameter `isEmail`.
- String lengths count characters. JavaScript counts UTF-16 code units, which differs only for characters outside the Basic Multilingual Plane.
- TransactionForm.IssuesMessage: the message of a client-side `ZodError` lists the issue messages one per line. Zod serialises the issue objects as JSON. The `details` object of a 400 response carries the issue list rather than the serialised error.
- The store's generated `id` and `createdAt` columns are not modelled, nor are concurrent creates and database isolation.
- TransactionsRoute.SortByDateDesc: rows with the same date keep their store order. The database leaves their order unspecified.
- The session lookup (`auth.api.getSession`) arrives as an already resolved `Option<UserId>`. If that lookup throws, the route answers 500, and the model does not capture this.
- React rendering, hook scheduling and state batching are not modelled.
- TransactionForm.TransactionFormCard.Submit: the browser's constraint validation of the `type="number" step="0.01"` amount input and the `type="date"` input (components/transaction-form-card.tsx:149-150, 196) is not modelled. The browser can block a submit (for example of "1.234") before `onSubmit` runs; `Edit` accepts any values, so the model admits more submissions than the page does.
- Dashboard.DashboardPage.FetchTransactions: the method is atomic, so the in-flight `isLoadingTransactions = true` state is not observable.
- `console.error` logging, sign-out, and the header and user-name rendering are not modelled.
- The clock-dependent default date of the form is the constructor parameter `today`.

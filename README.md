# Paket Lebaran payments, modelled in Dafny

Paket Lebaran is a shop that sells holiday packages (bundles of products) on
instalments. An admin defines products and packages. A package has a rate and a
cadence: "daily", "weekly" or "monthly". Customers, who may belong to a reseller,
pay for selected days. Admins and resellers confirm those payments. The backend is
an Express server over Prisma and SQLite, with bcrypt passwords and JWT logins. The
frontend is React.

This project models the logic of that system:

- the billing arithmetic: the amount owed, the remaining balance and the payment status;
- the date and product selections that the payment screens toggle;
- the payment calendar;
- the backend handlers for users, packages, payments and logins, as transitions of an
  in-memory store;
- the list, search, pagination, price formatting and form validation helpers of the
  admin and reseller screens.

One Dafny module stands for each source file. A few shared modules support them:

- `Wrappers`: Option.
- `Text`: ASCII case mapping, `includes`, `trim` over JavaScript's white space (the
  Unicode space separators, line terminators and the byte order mark among them), string
  order, decimal printing, `parseInt` with its "0x" prefix, and `length` counted in UTF-16
  code units.
- `Lists`: removing, toggling and duplicate-free lists.
- `Dates`: Gregorian month lengths and month arithmetic.
- `Billing`: ceiling division and the cadence amount.
- `Domain`: the records the API returns.
- `Store`: the tables, as a `Database` class whose sequences of rows keep their ids
  increasing, with counters handing out new ids.

The shapes follow the source:

- React state that a handler replaces becomes a class field, updated by a method with
  a `modifies` clause.
- A handler that reads and writes the store becomes a method on the `Database`.
- Pure filter, map and reduce expressions become functions.

Each is tied to the properties the screens and the server promise.

Each screen's cadence is a string, compared the way the screen compares it. The admin
package form upper-cases the method before sending it
(frontend/src/components/Admin/AdminPanel.js:339 and 444), and `createPackage` stores
it as sent (backend/controllers/packageController.js:22-26). So a package created there
as "daily" is stored as "DAILY", and the admin payment table bills it per 30 days
(`CustomerPaymentTable.UpperCaseDailyBilledPerThirtyDays`, `AdminPanel.DailyFormBilledMonthly`).

Passwords are values of `Domain.Secret`:

- `Hashed(p)` stands for a bcrypt hash of `p`;
- `Plain(t)` stands for a text stored unhashed.

`bcrypt.compare` matches only `Hashed` of the same text. A JWT is the value
`Token(userId, role)`.

## Model

| member | source | states |
|---|---|---|
| Billing.CeilDiv | frontend/src/components/Admin/CustomerPaymentTable.js:16-19 | Math.ceil(n / d): the least number of periods whose days cover n |
| Billing.Amount | frontend/src/components/Admin/CustomerPaymentTable.js:13-20 | no selected days cost nothing, and with a non-negative rate any selected day costs at least the rate |
| Billing.DivBounds | frontend/src/components/Admin/CustomerPaymentTable.js:16-19 | floored division brackets the dividend: (x / d) * d <= x < (x / d + 1) * d |
| Billing.PeriodDays | frontend/src/components/Admin/CustomerPaymentTable.js:13-20 | a billing period is 1 day for "daily", 7 for "weekly", 30 for anything else, and never empty |
| Billing.Periods | frontend/src/components/Admin/CustomerPaymentTable.js:13-20 | the periods billed cover the selected days with less than one period to spare, and no days bill no periods |
| Billing.DailyChargesPerDay | frontend/src/components/Admin/CustomerPaymentTable.js:13-14 | "daily" charges the rate once per selected day |
| Billing.CeilDivByOne | frontend/src/components/Admin/CustomerPaymentTable.js:14 | ceiling division by 1 is the identity |
| Billing.CeilDivOnePeriod | frontend/src/components/Admin/CustomerPaymentTable.js:16-19 | any 1 to d days make one period |
| Billing.WeeklyPartialWeekIsFullWeek | frontend/src/components/Admin/CustomerPaymentTable.js:15-16 | one to seven days under "weekly" cost the rate, as seven days do |
| Billing.SamePeriodSameAmount | frontend/src/components/Admin/CustomerPaymentTable.js:13-20 | two counts inside the same started period cost the same, under every cadence |
| Billing.CeilDivFormula | frontend/src/components/Admin/CustomerPaymentTable.js:16-19 | for a positive count, ceil(n / d) is (n - 1) / d + 1 |
| Billing.AmountMonotone | frontend/src/components/Admin/CustomerPaymentTable.js:13-20 | with a non-negative rate, more selected days never cost less |
| Billing.DailyStrictlyIncreasing | frontend/src/components/Admin/CustomerPaymentTable.js:13-14 | under "daily" with a positive rate each extra day costs more |
| Billing.UpperCaseCadenceBilledMonthly | frontend/src/components/Admin/CustomerPaymentTable.js:13-20 | the upper-case "DAILY" and "WEEKLY" that the admin package form sends are billed per 30 days, since the comparison is exact |
| Domain.FindPackage | frontend/src/components/Admin/CustomerPaymentTable.js:10 | packages.find: nothing exactly when no package has the id, otherwise the first package that has it |
| Domain.FindPackageUnique | frontend/src/components/Admin/CustomerPaymentTable.js:47-49 | with unique package ids, the package found for an id is the one carrying it |
| Domain.PackageName | frontend/src/components/Admin/CustomerPaymentTable.js:76-88 | "No package" when no package has the id; with unique ids, the name of the package that has it |
| CustomerPaymentTable.TotalAmount | frontend/src/components/Admin/CustomerPaymentTable.js:9-21 | 0 without a matching package; rate times days for "daily"; rate times started weeks for "weekly"; rate times started 30-day months otherwise |
| CustomerPaymentTable.PaidAmount | frontend/src/components/Admin/CustomerPaymentTable.js:51 | paid_amount \|\| 0: the stored paid amount, or 0 when there is none |
| CustomerPaymentTable.RemainingAmount | frontend/src/components/Admin/CustomerPaymentTable.js:52 | the remaining amount plus the paid amount is the total; with nothing paid the whole total remains; a non-negative payment never leaves more than the total |
| CustomerPaymentTable.StatusOf | frontend/src/components/Admin/CustomerPaymentTable.js:113-117 | "Lunas" exactly when nothing remains; "Sebagian" exactly when something remains and something is paid; "Belum Bayar" exactly when something remains and nothing is paid |
| CustomerPaymentTable.ConfirmDisabled | frontend/src/components/Admin/CustomerPaymentTable.js:131 | the Confirm Payment button is disabled exactly when the status is "Lunas" |
| CustomerPaymentTable.LabelsDistinct | frontend/src/components/Admin/CustomerPaymentTable.js:113-117 | different statuses show different labels |
| CustomerPaymentTable.Status.Label | frontend/src/components/Admin/CustomerPaymentTable.js:113-117 | the Status column shows "Lunas", "Sebagian" or "Belum Bayar", each exactly for its own status |
| CustomerPaymentTable.WeeklyPartialWeek | frontend/src/components/Admin/CustomerPaymentTable.js:15-16 | a weekly customer with one to seven days owes exactly the rate |
| CustomerPaymentTable.NoPackageShowsPaid | frontend/src/components/Admin/CustomerPaymentTable.js:106-131 | a customer without a matching package who paid a non-negative amount shows as "Lunas" and cannot be confirmed |
| CustomerPaymentTable.UpperCaseDailyBilledPerThirtyDays | frontend/src/components/Admin/CustomerPaymentTable.js:13-20 | an example of UpperCaseCadenceBilledMonthly: ten days of a 10000 package stored as "DAILY" show a total of 10000, not 100000 |
| Lists.Remove | frontend/src/components/common/PaymentConfirmationModal.js:48 | filter(d => d !== x): x no longer occurs, every other element is kept, only elements of the input remain, and no duplicates are introduced |
| Lists.RemoveAbsent | frontend/src/components/common/PaymentConfirmationModal.js:48 | filtering out an absent element changes nothing |
| Lists.RemoveAppend | frontend/src/components/common/PaymentConfirmationModal.js:48 | the filter distributes over concatenation |
| Lists.RemoveMultiset | frontend/src/components/common/PaymentConfirmationModal.js:48 | the filter deletes every copy of x and keeps the count of every other element |
| Lists.Toggle | frontend/src/components/common/PaymentConfirmationModal.js:46-52 | the toggled element is selected exactly when it was not; other elements stay; a new one goes at the end; no duplicates arise |
| Lists.ToggleTwiceAbsent | frontend/src/components/common/PaymentConfirmationModal.js:46-52 | toggling an unselected element twice gives back the very same list |
| Lists.ToggleTwiceSameElements | frontend/src/components/common/PaymentConfirmationModal.js:46-52 | toggling any element twice, without duplicates, gives back the same elements |
| Lists.NoDupCountOne | frontend/src/components/common/PaymentConfirmationModal.js:47 | in a list without duplicates a present element occurs exactly once |
| Lists.ToggleLength | frontend/src/components/common/PaymentConfirmationModal.js:46-52 | on a list without duplicates a toggle removes or adds exactly one element |
| Lists.IndexOf | frontend/src/components/common/PaymentConfirmationModal.js:13 | the position of the first occurrence, and nothing exactly when the element is absent |
| Lists.IndexOfNoDup | frontend/src/components/common/PaymentConfirmationModal.js:13 | in a list without duplicates the lookup finds the one position holding the element |
| PaymentConfirmationModal.Modal.constructor | frontend/src/components/common/PaymentConfirmationModal.js:9-11 | the modal opens with amount 0, today's date and nothing selected |
| PaymentConfirmationModal.Modal.CustomerPackage | frontend/src/components/common/PaymentConfirmationModal.js:13 | the customer's package when one has its id, nothing exactly when none does |
| PaymentConfirmationModal.Modal.CalculatePaymentAmount | frontend/src/components/common/PaymentConfirmationModal.js:21-38 | without a package the amount is left as it was; otherwise it is the package rate per day, per started week or per started 30 days of the selection |
| PaymentConfirmationModal.Modal.HandleDateToggle | frontend/src/components/common/PaymentConfirmationModal.js:40-53 | a date already paid is ignored; any other date is toggled; the selection stays free of duplicates and of paid dates |
| PaymentConfirmationModal.Modal.ClickDate | frontend/src/components/common/PaymentConfirmationModal.js:40-53 | a click toggles the date and the effect re-prices the selection, so the shown amount stays the price of the selection; the count changes by exactly one |
| PaymentConfirmationModal.Modal.SetPaymentDate | frontend/src/components/common/PaymentConfirmationModal.js:106 | the date input sets the payment date |
| PaymentConfirmationModal.Modal.HandleSubmit | frontend/src/components/common/PaymentConfirmationModal.js:55-57 | onSubmit receives the customer's id, the price of the current selection and the chosen date |
| PaymentConfirmationModal.Modal.EnabledSubmitIsPositive | frontend/src/components/common/PaymentConfirmationModal.js:157 | whenever Confirm Payment is enabled and the package rate is positive, the amount is positive |
| PaymentConfirmationModal.Modal.SubmitDisabled | frontend/src/components/common/PaymentConfirmationModal.js:157 | when Confirm Payment is disabled and the amount is current, the amount is 0 |
| PaymentConfirmationModal.Modal.DateDisabled | frontend/src/components/common/PaymentConfirmationModal.js:122 | a date the modal disables is never among the selected dates |
| PaymentConfirmationModal.ReselectRestoresAmount | frontend/src/components/common/PaymentConfirmationModal.js:21-53 | selecting and then deselecting a date restores the amount shown |
| Dates.DaysInMonth | frontend/src/components/Admin/PaymentCalendar.js:38-42 | the length of a month is 28 to 31 days, and February has 29 exactly in a leap year |
| Dates.ShiftMonth | frontend/src/components/Admin/PaymentCalendar.js:18-22 | the month m months after the start is a month from 1 to 12 |
| Dates.NextMonthRollsOver | frontend/src/components/Admin/PaymentCalendar.js:18-22 | one month after December is January of the next year; otherwise the year stays and the month grows by one |
| Dates.Pad2 | frontend/src/components/Admin/PaymentCalendar.js:60 | two digits |
| Dates.Pad4 | frontend/src/components/Admin/PaymentCalendar.js:60 | four digits |
| Dates.IsoDate | frontend/src/components/Admin/PaymentCalendar.js:60 | the date key is YYYY-MM-DD: ten characters, dashes at positions 4 and 7, digits elsewhere |
| Dates.Pad2Value | frontend/src/components/Admin/PaymentCalendar.js:60 | two printed digits read back as the number |
| Dates.Pad4Value | frontend/src/components/Admin/PaymentCalendar.js:60 | four printed digits read back as the number |
| Dates.IsoRoundTrip | frontend/src/components/Admin/PaymentCalendar.js:60 | reading a printed date key gives back the date |
| Dates.IsoInjective | frontend/src/components/Admin/PaymentCalendar.js:60-65 | two dates have the same key exactly when they are the same date |
| Dates.ReadIso | frontend/src/components/Admin/PaymentCalendar.js:60 | reading a date key gives a year below 10000 and a month and a day below 100 |
| Dates.DecimalValueBound | frontend/src/components/Admin/PaymentCalendar.js:60 | n digits read as a number below 10 to the n |
| Dates.Pad2OfValue | frontend/src/components/Admin/PaymentCalendar.js:60 | two digits read and printed again give the same two characters |
| Dates.Pad4OfValue | frontend/src/components/Admin/PaymentCalendar.js:60 | four digits read and printed again give the same four characters |
| Dates.DecimalValueAppend | frontend/src/components/Admin/PaymentCalendar.js:60 | digits followed by two more digits read as 100 times the first part plus the last two |
| Dates.IsoReadThenPrint | frontend/src/components/Admin/PaymentCalendar.js:60 | a well-shaped key whose date is in range prints back as the same key, so keys and dates correspond one to one |
| Dates.ValidDateInIsoRange | frontend/src/components/Admin/PaymentCalendar.js:60 | a real date of a four-digit year has a key |
| PaymentCalendar.GenerateCalendar | frontend/src/components/Admin/PaymentCalendar.js:13-55 | no blocks for a non-positive month count; otherwise one block per month, block k being the k-th month after the start, with the week starts for "weekly", the days for "daily", and neither for any other cadence |
| PaymentCalendar.WeekStarts | frontend/src/components/Admin/PaymentCalendar.js:31-36 | exactly the real dates of the month whose day is 1, 8, 15, 22 or 29, that is a week of days after the 1st |
| PaymentCalendar.DaysOf | frontend/src/components/Admin/PaymentCalendar.js:38-49 | exactly the real dates of the month, in increasing day order |
| PaymentCalendar.MonthBlock | frontend/src/components/Admin/PaymentCalendar.js:17-49 | the k-th month after the start, with week starts exactly for "weekly" and days exactly for "daily" |
| PaymentCalendar.WeekCount | frontend/src/components/Admin/PaymentCalendar.js:31-36 | a weekly month shows five week starts when it has a 29th day and four otherwise |
| PaymentCalendar.BlockDatesValid | frontend/src/components/Admin/PaymentCalendar.js:31-49 | every week start and every day shown is a real date of that block's month |
| PaymentCalendar.WeeksCoverMonth | frontend/src/components/Admin/PaymentCalendar.js:31-36 | the first week starts on the 1st and the last starts within seven days of the month's end |
| PaymentCalendar.BlocksAreConsecutive | frontend/src/components/Admin/PaymentCalendar.js:17-22 | consecutive blocks are consecutive months, across a year's end too |
| PaymentCalendar.Calendar.constructor | frontend/src/components/Admin/PaymentCalendar.js:4 | the calendar opens with nothing selected |
| PaymentCalendar.Calendar.ToggleDate | frontend/src/components/Admin/PaymentCalendar.js:59-66 | the date's key is toggled in the selection, which stays free of duplicates |
| PaymentCalendar.Calendar.HandleConfirm | frontend/src/components/Admin/PaymentCalendar.js:68-75 | with nothing selected nothing is sent (the user is alerted); otherwise the selection is sent and then cleared; nothing is sent exactly when the Confirm button is disabled |
| PaymentCalendar.Calendar.ConfirmDisabled | frontend/src/components/Admin/PaymentCalendar.js:137 | the Confirm button is disabled exactly when no date is selected, which is exactly when HandleConfirm sends nothing |
| PaymentCalendar.ToggleKeepsOtherDates | frontend/src/components/Admin/PaymentCalendar.js:59-66 | toggling one date never changes whether another date is selected |
| CustomerPanel.DailyRate | frontend/src/components/customer/CustomerPanel.js:46-57 | the weekly amount is spread over 7 days, the monthly over 30, and any other cadence, "daily" included, is charged as it is |
| CustomerPanel.PanelTotal | frontend/src/components/customer/CustomerPanel.js:59-68 | no days cost 0; a non-negative amount gives a non-negative total; a weekly total times 7 and a monthly total times 30 are the days times the amount; any other cadence costs the days times the amount |
| CustomerPanel.FullWeekCostsRate | frontend/src/components/customer/CustomerPanel.js:46-68 | a corollary of PanelTotal's weekly case: seven selected days of a weekly package cost exactly the weekly amount |
| CustomerPanel.PanelAgainstAdmin | frontend/src/components/customer/CustomerPanel.js:59-68 | for "daily" the panel's total equals the admin screens' amount; for "weekly" with one to seven days it is never more, and with fewer than seven and a positive rate it is less |
| CustomerPanel.CalendarEnd | frontend/src/components/customer/CustomerPanel.js:105-112 | a monthly calendar reaches the duration in months; a weekly one 7 days per unit; any other 30 days per unit |
| CustomerPanel.SelectableInAnyYear | frontend/src/components/customer/CustomerPanel.js:135-149 | a corollary of IsSelectableDay: only the month is compared, so a day of the start month is selectable in every year, and a day of any other month in none |
| CustomerPanel.DurationInput | frontend/src/components/customer/CustomerPanel.js:250-252 | parseInt(value) or 1 when that is NaN or 0, so the duration is never 0 |
| CustomerPanel.DurationOfPrintedNumber | frontend/src/components/customer/CustomerPanel.js:250-252 | a typed positive number is taken as the duration |
| CustomerPanel.Panel.constructor | frontend/src/components/customer/CustomerPanel.js:13-18 | the panel opens with no packages, no selection, today's start, a duration of 1 and a total of 0 |
| CustomerPanel.Panel.SetPackages | frontend/src/components/customer/CustomerPanel.js:30-37 | the fetched list becomes the package list |
| CustomerPanel.Panel.CalculateTotalAmount | frontend/src/components/customer/CustomerPanel.js:59-68 | without a package the total is left as it was; otherwise it is the number of selected days times the daily rate |
| CustomerPanel.Panel.HandlePackageSelect | frontend/src/components/customer/CustomerPanel.js:39-44 | choosing a package empties the selection, restarts the calendar today with a duration of 1, and the total becomes 0 |
| CustomerPanel.Panel.HandleDateSelect | frontend/src/components/customer/CustomerPanel.js:70-79 | a click toggles the day's key, the count changes by one, and the total stays the price of the selection |
| CustomerPanel.Panel.ClickDay | frontend/src/components/customer/CustomerPanel.js:135-150 | a day outside the start date's month (IsSelectableDay false) has a disabled button, so its click changes nothing; a day in that month is toggled as by HandleDateSelect |
| CustomerPanel.Panel.SetPaymentStartDate | frontend/src/components/customer/CustomerPanel.js:230 | the date input sets the start date |
| CustomerPanel.Panel.SetPaymentDuration | frontend/src/components/customer/CustomerPanel.js:250-252 | the duration input stores DurationInput of the text |
| CustomerPanel.Panel.HandleConfirmPayment | frontend/src/components/customer/CustomerPanel.js:81-100 | nothing is assembled without a selection (the user is alerted); otherwise the package id, the dates, the current total and the cadence |
| CustomerPanel.Panel.CurrentCalendarEnd | frontend/src/components/customer/CustomerPanel.js:102-112 | no calendar without a package; otherwise CalendarEnd of its cadence and the duration |
| AdminPanel.PriceOf | frontend/src/components/Admin/AdminPanel.js:689-694 | a product id missing from the catalogue is priced 0; otherwise the price is that of the FIRST product carrying the id |
| AdminPanel.SelectedTotal | frontend/src/components/Admin/AdminPanel.js:316-323 | a selection with no catalogue id in it costs 0, and non-negative prices give a non-negative amount |
| AdminPanel.PackageTotal | frontend/src/components/Admin/AdminPanel.js:689-694 | a preview whose ids are all missing from the catalogue is 0, and non-negative prices give a non-negative total |
| AdminPanel.SelectedTotalByMembership | frontend/src/components/Admin/AdminPanel.js:316-323 | the catalogue sum stored by the toggle depends only on which ids are selected, not on their order or repetition |
| AdminPanel.SelectedTotalIgnoresUnknown | frontend/src/components/Admin/AdminPanel.js:316-323 | selecting an id that no catalogue product has does not change the amount |
| AdminPanel.SelectedTotalCons | frontend/src/components/Admin/AdminPanel.js:316-323 | with distinct catalogue ids, selecting a fresh id adds exactly that product's price |
| AdminPanel.TotalsAgree | frontend/src/components/Admin/AdminPanel.js:316-323 | the amount the toggle stores equals the preview total of the package, for distinct catalogue ids and a selection without repeats |
| AdminPanel.EmptySelectionCostsNothing | frontend/src/components/Admin/AdminPanel.js:320-323 | an empty selection costs 0 |
| AdminPanel.ToggleTwiceRestoresAmount | frontend/src/components/Admin/AdminPanel.js:310-331 | toggling a product twice gives back the same selected ids and the same amount, and the same list when the id was not selected |
| AdminPanel.CreatePayload | frontend/src/components/Admin/AdminPanel.js:333-343 | the create request upper-cases the method and carries the name, amount, months and product ids of the form |
| AdminPanel.EditPayload | frontend/src/components/Admin/AdminPanel.js:437-448 | the edit request upper-cases the method and carries the name and product ids |
| AdminPanel.DailyFormBilledMonthly | frontend/src/components/Admin/AdminPanel.js:339 | a package created with the form's default "daily" is stored as "DAILY", which the payment table bills per 30 days |
| AdminPanel.BulkRecords | frontend/src/components/Admin/AdminPanel.js:519-527 | one record per selected date, in order, each confirmed, at the package's amount, for the selected customer and package |
| AdminPanel.IsoMidnight | frontend/src/components/Admin/AdminPanel.js:522 | new Date(key).toISOString() of a yyyy-MM-dd key: the key followed by a 14-character suffix for midnight UTC |
| AdminPanel.IsoMidnightInjective | frontend/src/components/Admin/AdminPanel.js:522 | two keys give the same timestamp exactly when they are the same key |
| AdminPanel.ConfirmOutcomeAsWritten | frontend/src/components/Admin/AdminPanel.js:510-537 | without both a customer and a package only an alert; with both, an empty selection posts an empty batch and any other selection throws before the request |
| AdminPanel.ConfirmOutcome | frontend/src/components/Admin/AdminPanel.js:510-537 | without both a customer and a package only an alert; otherwise the intended records are posted |
| AdminPanel.AsWrittenNeverPosts | frontend/src/components/Admin/AdminPanel.js:526 | for a non-empty selection the code as written fails, while the intended version posts one confirmed record per date |
| AdminPanel.Credit | frontend/src/components/Admin/AdminPanel.js:659-667 | the update the updater intends: the paid amount grows by the payment, a missing one counted as 0, the dates are appended to the paid dates, and nothing else changes |
| AdminPanel.Credited | frontend/src/components/Admin/AdminPanel.js:656-677 | the intended list: only the customers with the submitted id are credited, the others are left as they were, and the list keeps its length |
| AdminPanel.CreditedMarksDatesPaid | frontend/src/components/Admin/AdminPanel.js:664-667 | after the update every date paid for and every date paid before is among the customer's paid dates |
| AdminPanel.SubmitAsWritten | frontend/src/components/Admin/AdminPanel.js:656-684 | as written the list stays as it was and the promise is rejected: format without a format string raises inside the updater, and toast is undefined in both branches |
| AdminPanel.SubmitFixed | frontend/src/components/Admin/AdminPanel.js:656-684 | the intended handler: the credited list after a successful request, the same list after a failed one, and a notification of the outcome either way |
| AdminPanel.SubmitAsWrittenLosesPayment | frontend/src/components/Admin/AdminPanel.js:669 | for a matching customer and a non-zero amount the list as written keeps the old paid amount, while the intended update changes it |
| AdminPanel.Panel.constructor | frontend/src/components/Admin/AdminPanel.js:61-68 | the form starts empty with method "daily" and amount 0, nothing is selected and one month is chosen |
| AdminPanel.Panel.ToggleProductInPackage | frontend/src/components/Admin/AdminPanel.js:310-331 | the product id is toggled, the amount becomes the catalogue price of the new selection, nothing else in the form changes, and a selection without repeats stays so |
| AdminPanel.Panel.CalculatePackageTotal | frontend/src/components/Admin/AdminPanel.js:689-694 | the preview total equals the amount stored in the form, for distinct ids |
| AdminPanel.Panel.HandleConfirmPayment | frontend/src/components/Admin/AdminPanel.js:510-537 | the outcome of the code as written |
| AdminPanel.Panel.HandleConfirmPaymentFixed | frontend/src/components/Admin/AdminPanel.js:510-537 | the intended outcome, the record list built date by date |
| AdminPanel.Panel.HandlePaymentSubmit | frontend/src/components/Admin/AdminPanel.js:650-685 | as written: the customers list is never replaced and the call ends in a rejected promise, whether the request succeeds or fails |
| AdminPanel.Panel.HandlePaymentSubmitFixed | frontend/src/components/Admin/AdminPanel.js:650-685 | with a format string and toast imported: after a successful request the customers are the credited list and success is shown; after a failed one they are unchanged and the failure is shown |
| Domain.FindProduct | frontend/src/components/Admin/AdminPanel.js:692 | products.find: nothing exactly when no product has the id; otherwise the FIRST product in catalogue order that has it |
| Store.FindUser | backend/controllers/userController.js:129-131 | a lookup by id: nothing exactly when no row has the id, otherwise a position holding it |
| Store.FindUsername | backend/controllers/authController.js:21-23 | a lookup by username: nothing exactly when no row has it, otherwise a position holding it |
| Store.FindPackageRow | backend/controllers/packageController.js:128-133 | a lookup of a package by id: nothing exactly when no row has the id |
| Store.FindPayment | backend/controllers/paymentController.js:135 | a lookup of a payment by id: nothing exactly when no row has the id |
| Store.FindUserAt | backend/controllers/userController.js:129-131 | with distinct ids the lookup of a row's id finds that very row |
| Store.Database.InsertUser | backend/controllers/authController.js:31-41 | a create gives the row the next id and appends it; a taken username appends nothing; the tables stay well formed |
| Store.Database.ReplaceUser | backend/controllers/userController.js:216-219 | an update replaces only that row and keeps ids increasing and usernames distinct |
| Store.Database.UsernameTakenByOther | backend/controllers/userController.js:216-219 | a new username clashes exactly when another row already has it |
| Store.Database.DeleteUser | backend/controllers/userController.js:236 | a delete removes only that row and keeps the table well formed |
| Store.Database.InsertPayment | backend/controllers/paymentController.js:109-120 | an insert gives the row the next id and appends it |
| Store.Database.ReplacePayment | backend/controllers/paymentController.js:68-69 | an update of a payment replaces only that row and keeps the payment ids |
| Store.Database.InsertPackage | backend/controllers/packageController.js:22-36 | a create gives the row the next id and appends it |
| Store.Database.ReplacePackage | backend/controllers/packageController.js:150-174 | an update of a package replaces only that row and keeps the package ids |
| Store.Database.DeletePackageAt | backend/controllers/packageController.js:203-205 | a delete removes only that row and keeps the package ids increasing |
| Store.Database.SetUsers | backend/controllers/packageController.js:192-195 | a bulk user update that keeps ids and usernames leaves the user table well formed |
| Store.Database.SetPayments | backend/controllers/packageController.js:198-200 | a bulk payment delete that keeps ids below the counter leaves the payment table well formed |
| UserController.RoleAt | backend/controllers/userController.js:34-36 | the position of the row with that id when it has the role, and nothing exactly when the id is unknown or the row has another role |
| UserController.FilterUsers | backend/controllers/userController.js:8-18 | a user is listed exactly when it is in the table and matches the role filter (when a role is given) and the reseller filter (when one is given); never more rows than the table |
| UserController.FilterUsersAppend | backend/controllers/userController.js:8-18 | the listing keeps table order: filtering two tables one after the other is filtering each and joining the results |
| UserController.FilterUsersSingle | backend/controllers/userController.js:8-18 | a single user is listed exactly when it matches both filters |
| UserController.NoFilterListsEveryone | backend/controllers/userController.js:9-18 | with neither filter, every user is listed in table order |
| UserController.FilterIdempotent | backend/controllers/userController.js:9-18 | filtering the result again by the same clause changes nothing |
| UserController.ResellerFilter | backend/controllers/userController.js:13-15 | an empty or missing reseller_id adds no filter; otherwise the filter is parseInt of the text, and a text that does not parse gives no filter value at all |
| UserController.GetAllCustomers | backend/controllers/userController.js:6-26 | 200 with the matching users; a reseller_id that parses to NaN is refused (500) |
| UserController.GetAllResellers | backend/controllers/userController.js:84-96 | 200 with exactly the users whose role is RESELLER |
| UserController.SearchUsers | backend/controllers/userController.js:104-116 | exactly the customers whose name or phone contains the query, ignoring case |
| UserController.SearchCustomers | backend/controllers/userController.js:98-124 | 400 without a query; otherwise 200 with exactly the matching customers |
| UserController.GetCustomerById | backend/controllers/userController.js:126-142 | 404 for an unknown id or a user who is not a customer; otherwise that customer's row |
| UserController.GetResellerById | backend/controllers/userController.js:314-330 | 404 for an unknown id or a user who is not a reseller; otherwise that reseller's row |
| UserController.Confirmed | backend/controllers/userController.js:428-437 | paid_amount becomes the old amount (0 when unset) plus the payment; last_payment_date takes the sent date, is kept when the body has none, and is cleared by null; no other field changes |
| UserController.ConfirmedTwice | backend/controllers/userController.js:428-437 | two confirmations add both amounts; the later date is kept when it is sent, and otherwise the first confirmation's date stays |
| UserController.ConfirmPayment | backend/controllers/userController.js:415-451 | 404 unless the id is a customer's; a body without an amount makes the sum NaN and the update fails (500, nothing written); otherwise only that customer's row changes, to Confirmed |
| UserController.ConnectId | backend/controllers/userController.js:155-160 | a package or reseller link is made only for a non-empty field whose parseInt is a non-zero number, and then links to that number |
| UserController.ConnectPrintedId | backend/controllers/userController.js:155-160 | a positive id sent as its decimal digits links to that id |
| UserController.HashIfGiven | backend/controllers/userController.js:163-166 | a password is stored exactly when a non-empty one is sent, and then as its hash |
| UserController.CustomerRecord | backend/controllers/userController.js:146-183 | the created customer: role CUSTOMER, the username, name, phone and start date as sent, payment method DAILY only when the field is absent, while a sent null or value is stored as sent, a password only when given and then hashed, the parsed package and reseller links, nothing paid yet |
| UserController.CreateCustomer | backend/controllers/userController.js:144-197 | 201 exactly when the linked rows exist and the username is free, and then one record is appended with the next id; otherwise 500 and the table is unchanged |
| UserController.ResellerRecordAsWritten | backend/controllers/userController.js:334-339 | the created reseller as written: role RESELLER and the password stored as sent, not hashed |
| UserController.ResellerRecord | backend/controllers/userController.js:334-339 | the corrected reseller record: the password hashed, like every other account's |
| UserController.CreateReseller | backend/controllers/userController.js:332-347 | as written: 201 exactly when the username is free, and then the unhashed record is appended; otherwise 500 with the table unchanged |
| UserController.CreateResellerHashed | backend/controllers/userController.js:332-347 | the corrected createReseller: the same outcomes, with the hashed record appended |
| UserController.ApplyProfile | backend/controllers/userController.js:207-209 | every column the body sends (username, name, phone, role, package, reseller, method, start date) replaces the stored one; id, password, paid amount, payment dates and paid days are kept (lines 356-359 for resellers) |
| UserController.CustomerUpdated | backend/controllers/userController.js:207-214 | updateCustomer's new row: ApplyProfile of the body, with the password replaced by the new hash only when a non-empty one is sent |
| UserController.ResellerUpdatedAsWritten | backend/controllers/userController.js:356-359 | updateReseller's new row as written: ApplyProfile of the whole body, with a sent password stored unhashed |
| UserController.UpdateGuarded | backend/controllers/userController.js:199-227 | a role-guarded update: 404 unless the id has the role; 500 when the new username belongs to another user; otherwise only that row is replaced (lines 349-367 for resellers) |
| UserController.UpdateCustomer | backend/controllers/userController.js:199-227 | updateCustomer: UpdateGuarded's outcomes with CustomerUpdated as the new row |
| UserController.UpdateReseller | backend/controllers/userController.js:349-367 | updateReseller as written: UpdateGuarded's outcomes with ResellerUpdatedAsWritten as the new row |
| UserController.UpdateResellerHashed | backend/controllers/userController.js:349-367 | the corrected updateReseller: a sent password is hashed, as updateCustomer does |
| UserController.RoleChangeMovesRow | backend/controllers/userController.js:199-219 | an update that sends another role moves the row: the handlers of the old role no longer find the id, and those of the new role find that row |
| UserController.Assigned | backend/controllers/userController.js:39-46 | reseller_id and package_id become the parsed numbers, payment_method is set when the field is present (a null included), and nothing else changes |
| UserController.AssignCustomerToReseller | backend/controllers/userController.js:29-56 | 404 unless the id is a customer's; 500 when either id parses to NaN; otherwise only that customer's row changes, to Assigned |
| UserController.ParsedOrNaN | backend/controllers/userController.js:42-43 | parseInt of a missing field is NaN; otherwise it is parseInt of the text |
| UserController.UpdateCustomerPackage | backend/controllers/userController.js:59-82 | 404 unless the id is a customer's; otherwise only package_id and payment_method change, when they are sent |
| UserController.DeleteWithRole | backend/controllers/userController.js:229-244 | 404 unless the id has the role; otherwise exactly that row is removed (lines 369-384 for resellers) |
| UserController.DeleteCustomer | backend/controllers/userController.js:229-244 | deleteCustomer: DeleteWithRole with role CUSTOMER |
| UserController.DeleteReseller | backend/controllers/userController.js:369-384 | deleteReseller: DeleteWithRole with role RESELLER |
| UserController.DeletedIdGone | backend/controllers/userController.js:236 | after a delete no remaining row has the deleted id (line 376 for resellers) |
| UserController.ResetPassword | backend/controllers/userController.js:285-312 | 400 without a new password, checked before the lookup; 404 unless the id has the role; otherwise only that user's password changes, to the new hash (lines 385-412 for resellers) |
| PaymentController.PendingPayment | backend/controllers/paymentController.js:99-107 | the recorded payment carries the request's six fields and the status "pending" |
| PaymentController.HandlePayment | backend/controllers/paymentController.js:76-129 | 400 with no insert when any of the six fields is missing or falsy (an amount of 0 included); otherwise 201 and exactly one pending row is appended |
| PaymentController.BatchRows | backend/controllers/paymentController.js:8-23 | the batch's rows are the payments in input order, with ids counting up from the next id |
| PaymentController.AddBulkPayments | backend/controllers/paymentController.js:5-30 | one insert per payment, in input order, appended after the existing rows; the input is returned |
| PaymentController.UpdatePaymentStatus | backend/controllers/paymentController.js:66-73 | the row with that id gets the new status and is read back; every other row is untouched; an unknown id changes nothing and reads back nothing |
| PaymentController.StatusReadsBack | backend/controllers/paymentController.js:68-69 | after the update, reading that id finds the same row with the new status |
| PaymentController.GetPaymentStatus | backend/controllers/paymentController.js:132-144 | 404 "Payment not found" exactly when the id is unknown; otherwise 200 with that row's status |
| PaymentController.InsertByDate | backend/controllers/paymentController.js:41 | inserting one listed payment into the ordered listing adds exactly that element (and line 58) |
| PaymentController.InsertByDateSorted | backend/controllers/paymentController.js:41 | inserting into a newest-first listing keeps it newest first |
| PaymentController.SortByDateDesc | backend/controllers/paymentController.js:41 | the ordered listing is a permutation of its input (and line 58) |
| PaymentController.SortByDateDescSorted | backend/controllers/paymentController.js:41 | the ordered listing is newest payment date first |
| PaymentController.JoinPackage | backend/controllers/paymentController.js:39 | the inner join drops a payment whose package is gone, and otherwise adds that package's name |
| PaymentController.UserPayments | backend/controllers/paymentController.js:37-40 | every row listed is one of that user's payments; every payment of that user whose package exists is listed |
| PaymentController.GetPaymentsByUserId | backend/controllers/paymentController.js:33-48 | a permutation of UserPayments, newest payment date first |
| PaymentController.AllPayments | backend/controllers/paymentController.js:54-57 | every row listed has an existing user and package; every payment whose user and package exist is listed, with both names |
| PaymentController.GetAllPayments | backend/controllers/paymentController.js:51-63 | a permutation of AllPayments, newest payment date first |
| PackageController.CreatedRow | backend/controllers/packageController.js:22-36 | the created package row carries the sent name, description, cadence, amount and months, and is linked to exactly the listed product ids |
| PackageController.CreatePackage | backend/controllers/packageController.js:7-43 | 400 "Missing required fields" with nothing created when the name, the payment method or the product list is missing or empty; 500 when a listed product does not exist; otherwise 201 and exactly one row is appended with the next id |
| PackageController.CreatedLinksExactly | backend/controllers/packageController.js:29-31 | a product is linked to the new package exactly when its id was listed |
| PackageController.SearchPackages | backend/controllers/packageController.js:100-105 | with a search, exactly the packages whose name contains it ignoring case; without one, all; table order kept |
| PackageController.Reverse | backend/controllers/packageController.js:106-108 | the descending order: element k of the result is element n-1-k of the input |
| PackageController.GetAllPackages | backend/controllers/packageController.js:96-122 | 200 with exactly the matching packages, by id ascending when sort is "asc" and strictly descending otherwise, the default included |
| PackageController.GetPackageById | backend/controllers/packageController.js:125-146 | 404 "Package not found" for an unknown id, otherwise that row |
| PackageController.UpdatedRow | backend/controllers/packageController.js:150-174 | the updated row keeps its id, takes every sent field, and is linked to exactly the listed product ids |
| PackageController.UpdatePackage | backend/controllers/packageController.js:150-174 | 500 with nothing changed when productIds is missing, the package is unknown or a listed product does not exist; otherwise only that row changes, to UpdatedRow |
| PackageController.Unlinked | backend/controllers/packageController.js:192-195 | every user on the package is left without one; every other user is unchanged; no one is added or removed |
| PackageController.Unreferenced | backend/controllers/packageController.js:198-200 | exactly the payments that do not refer to the package remain |
| PackageController.UnreferencedKeepsIds | backend/controllers/packageController.js:198-200 | deleting payments keeps the remaining ids increasing and below the next id |
| PackageController.DeletePackage | backend/controllers/packageController.js:178-217 | an unknown id fails at the first step (500) and nothing changes; otherwise the package row is removed, its users are unlinked, its payments are deleted, and nothing else changes |
| PackageController.NothingRefersToDeleted | backend/controllers/packageController.js:178-205 | after the cascade the id is no longer found, no user refers to it and no payment does |
| AuthController.RegisteredRecord | backend/controllers/authController.js:29-41 | the stored record: the given username, the password as its hash, the role upper-cased or CUSTOMER when none is given, no reseller and no package |
| AuthController.Register | backend/controllers/authController.js:10-50 | 400 "Username dan password wajib diisi" when either field is missing or empty; 400 "Username sudah digunakan" when the username exists; both leave the user table as it was; otherwise 201 with the next id, and exactly one record is appended |
| AuthController.LoginResult | backend/controllers/authController.js:52-90 | 400 on a missing field; 401 "Username atau password salah" on an unknown user; success exactly when the user exists and the stored hash is the hash of the typed password, and then the token carries that user's id and role; a stored record without a password makes the comparison throw (500) |
| AuthController.Login | backend/controllers/authController.js:52-90 | the reply is LoginResult of the table as it is; a rejection is 400 or 401 |
| AuthController.UnknownUserLooksLikeWrongPassword | backend/controllers/authController.js:66-73 | an unknown username and a wrong password get the same reply |
| AuthController.FindAppended | backend/controllers/authController.js:62-64 | a record appended under a fresh username is the one a lookup by that username finds |
| AuthController.RegisteredUserCanLogIn | backend/controllers/authController.js:29-86 | whoever registers can then log in with the same username and password, and gets a token for the new id |
| AuthController.CreatedResellerCannotLogIn | backend/controllers/userController.js:332-347 | a reseller created as written is rejected with 401 when logging in with the password the admin gave |
| AuthController.HashedResellerCanLogIn | backend/controllers/userController.js:332-347 | with the password hashed, the new reseller logs in with a RESELLER token |
| AuthController.UpdatedResellerPassword | backend/controllers/userController.js:349-367 | after updateReseller as written sets a password, logging in with it is rejected; after the hashed update it succeeds |
| PackageList.FilterPackages | frontend/src/components/Admin/Packages/PackageList.js:48-52 | a package is kept exactly when its lower-cased name or description contains the lower-cased term, and the list never grows |
| PackageList.FilterPackagesAppend | frontend/src/components/Admin/Packages/PackageList.js:48-52 | the filter keeps the packages' order: filtering a concatenation is concatenating the filtered parts |
| PackageList.FilterPackagesIdempotent | frontend/src/components/Admin/Packages/PackageList.js:48-52 | filtering twice by the same term is filtering once |
| PackageList.EmptyTermKeepsAll | frontend/src/components/Admin/Packages/PackageList.js:48-52 | the empty search term keeps every package, in order |
| PackageList.SliceIndex | frontend/src/components/Admin/Packages/PackageList.js:57-60 | a slice bound inside the list is used as is, and one past the end is clipped to the length |
| PackageList.JsSlice | frontend/src/components/Admin/Packages/PackageList.js:57-60 | a slice holds only items of the list and at most end - start of them |
| PackageList.Page | frontend/src/components/Admin/Packages/PackageList.js:57-60 | page p holds only listed items, at most k of them, and is the run from (p - 1) * k to p * k clipped to the list |
| PackageList.TotalPages | frontend/src/components/Admin/Packages/PackageList.js:54 | no pages exactly for no items; otherwise the last page is the first whose end covers every item |
| PackageList.ItemOnItsPage | frontend/src/components/Admin/Packages/PackageList.js:54-60 | item (p - 1) * k + i of the filtered list is item i of page p, and page p exists |
| PackageList.PageSizes | frontend/src/components/Admin/Packages/PackageList.js:54-60 | every page from 1 to the last holds one to k items and every later page is empty |
| PackageList.PageWindow | frontend/src/components/Admin/Packages/PackageList.js:727-737 | min(5, totalPages) consecutive page numbers, all between 1 and totalPages, that include the current page when it is in range |
| PackageList.PageNumber | frontend/src/components/Admin/Packages/PackageList.js:727-737 | with more than five pages every button is a page from 1 to the last, and a current page away from both ends is on the middle button |
| PackageList.AddProduct | frontend/src/components/Admin/Packages/PackageList.js:103-112 | the id is in the list afterwards, appended only when absent, so a list without repeats stays so |
| PackageList.AddThenRemove | frontend/src/components/Admin/Packages/PackageList.js:103-119 | adding a new product and removing it gives the list back |
| PackageList.RemoveKeepsOthers | frontend/src/components/Admin/Packages/PackageList.js:114-119 | removing a product keeps the other products in their order |
| PackageList.ProductIds | frontend/src/components/Admin/Packages/PackageList.js:85 | the ids of the package's products, in order |
| PackageList.EditForm | frontend/src/components/Admin/Packages/PackageList.js:77-89 | the edit form carries the package's product ids and its method lower-cased, or "daily" when it has none |
| PackageList.EditSendsMethodBack | frontend/src/components/Admin/Packages/PackageList.js:77-89 | a package opened for editing and saved unchanged sends back its stored method upper-cased and its product ids |
| PackageList.Available | frontend/src/components/Admin/Packages/PackageList.js:92-100 | the picker offers exactly the products whose lower-cased name contains the query and that are not in the package |
| PackageList.PickerProducts | frontend/src/components/Admin/Packages/PackageList.js:99-101 | a picker page holds at most twelve products, none of them already in the package |
| PackageList.ProductsTotalAppend | frontend/src/components/Admin/Packages/PackageList.js:484-487 | the price of a package's products is additive over the product list |
| PackageList.ProductsTotal | frontend/src/components/Admin/Packages/PackageList.js:484-487 | no products cost 0, and non-negative prices give a non-negative total |
| PackageList.ListTotalMatchesForm | frontend/src/components/Admin/Packages/PackageList.js:484-487 | the price shown in the list equals the amount the admin form computes for the same products |
| PackageList.View.CurrentPackages | frontend/src/components/Admin/Packages/PackageList.js:55-60 | the page shown holds at most a page of packages, each of them matching the search |
| PackageList.View.constructor | frontend/src/components/Admin/Packages/PackageList.js:14-34 | no search term, ten packages a page, page 1 and an empty form with method "daily" |
| PackageList.View.SetSearchTerm | frontend/src/components/Admin/Packages/PackageList.js:71-74 | a new search term goes back to page 1 |
| PackageList.View.SetItemsPerPage | frontend/src/components/Admin/Packages/PackageList.js:71-74 | choosing one of the offered page sizes goes back to page 1 |
| PackageList.View.NextPage | frontend/src/components/Admin/Packages/PackageList.js:232-233 | moves forward exactly when a later page exists, so it never leaves the last page |
| PackageList.View.PrevPage | frontend/src/components/Admin/Packages/PackageList.js:234 | moves back exactly from page 2 on, so it never goes below page 1 |
| PackageList.View.GoToPage | frontend/src/components/Admin/Packages/PackageList.js:235 | a window button moves to that page, which exists |
| PackageList.View.OpenEditModal | frontend/src/components/Admin/Packages/PackageList.js:77-89 | the form becomes the edit form of the package |
| PackageList.View.HandleAddProduct | frontend/src/components/Admin/Packages/PackageList.js:103-112 | only the form's product ids change, to the list with the id added |
| PackageList.View.HandleRemoveProduct | frontend/src/components/Admin/Packages/PackageList.js:114-119 | only the form's product ids change, to the list without the id |
| ProductForm.KeepDigits | frontend/src/components/Admin/Products/ProductForm.js:19 | the result is all digits, no longer than the input, and holds exactly the input's digit characters |
| ProductForm.KeepDigitsOfDigits | frontend/src/components/Admin/Products/ProductForm.js:19 | a value that is already all digits is kept as it is |
| ProductForm.KeepDigitsIdempotent | frontend/src/components/Admin/Products/ProductForm.js:19 | stripping twice is stripping once |
| ProductForm.KeepDigitsAppend | frontend/src/components/Admin/Products/ProductForm.js:19 | the digits of a concatenation are the digits of each part, in order |
| ProductForm.InsertDotsLength | frontend/src/components/Admin/Products/ProductForm.js:47 | grouping n digits adds (n - 1) / 3 separators, and the result is made of digits and dots |
| ProductForm.InsertDots | frontend/src/components/Admin/Products/ProductForm.js:47 | at most three digits stay as they are, and grouping never loses a character |
| ProductForm.InsertDotsGrouped | frontend/src/components/Admin/Products/ProductForm.js:47 | a "." stands exactly at each inner position with a whole number of three-digit groups after it, so never at the start or the end |
| ProductForm.InsertDotsStrip | frontend/src/components/Admin/Products/ProductForm.js:47 | removing the separators from the grouped digits gives back the digits |
| ProductForm.KeepDigitsJoin | frontend/src/components/Admin/Products/ProductForm.js:47 | the digits of two parts joined by a "." are the digits of the first part followed by the second |
| ProductForm.ShortPriceUnchanged | frontend/src/components/Admin/Products/ProductForm.js:47 | at most three digits are shown unchanged |
| ProductForm.GroupLengths | frontend/src/components/Admin/Products/ProductForm.js:47 | every separator has one to three digits before it when it is the first, exactly three digits after it, and then another separator or the end |
| ProductForm.FormatPrice | frontend/src/components/Admin/Products/ProductForm.js:46-48 | the printed price is grouped by thousands, made of digits and dots, and deleting every "." gives back the decimal digits of the price |
| ProductForm.PriceInputValue | frontend/src/components/Admin/Products/ProductForm.js:109 | the price field is empty exactly when the price is 0 |
| ProductForm.PriceFromInput | frontend/src/components/Admin/Products/ProductForm.js:17-30 | the price read from typed text, with frontend/src/components/Admin/AdminPanel.js:246-252 applying `parseFloat(value) \|\| 0` to the kept digits: 0 when the text has no digit (NaN becoming 0) or only zeros, and otherwise a positive number; text made of digits alone reads as its decimal value |
| ProductForm.ShowsHint | frontend/src/components/Admin/Products/ProductForm.js:118 | the formatted hint is shown exactly when the price field is not empty |
| ProductForm.InputRoundTrip | frontend/src/components/Admin/Products/ProductForm.js:17-30 | what the price field shows, typed back, gives the same price (with frontend/src/components/Admin/AdminPanel.js:246-252 reading the digits) |
| ProductForm.FormattedRoundTrip | frontend/src/components/Admin/Products/ProductForm.js:118-121 | the grouped hint, typed back into the field, gives the same price |
| ProductForm.KeepDigitsIsRemoveDots | frontend/src/components/Admin/Products/ProductForm.js:19 | on digits and dots, stripping the non-digits is deleting the dots |
| Forms.CreatePasswordError | frontend/src/components/Admin/Customers/CustomerTable.js:378-380 | "Password is required" when the password trims to nothing; otherwise "Password must be at least 6 characters" when its UTF-16 length is under six; no error exactly when it is not blank and its UTF-16 length is at least six |
| Forms.ResetPasswordError | frontend/src/components/Admin/Customers/CustomerTable.js:541-551 | "New password is required" when empty; the length message when non-empty with a UTF-16 length under six; no error exactly when its UTF-16 length is at least six, with no trimming |
| Forms.ThreeAstralCharactersAccepted | frontend/src/components/Admin/Customers/CustomerTable.js:379 | three characters above U+FFFF are six code units, so both the create form and the reset dialog accept them (reset at line 547) |
| Forms.CreateRuleStricterThanReset | frontend/src/components/Admin/Customers/CustomerTable.js:378-380 | every password the create form accepts is accepted by the reset dialog; and, as a concrete example, six spaces are accepted by the reset dialog and refused by the create form (reset at lines 542-550) |
| CustomerTable.ValidateForm | frontend/src/components/Admin/Customers/CustomerTable.js:371-384 | "name" is reported exactly when the name is blank; in create mode "username" exactly when it is blank and "password" exactly when CreatePasswordError finds one, with those messages; no other key; no errors exactly when the form is accepted |
| CustomerTable.CreatePayload | frontend/src/components/Admin/Customers/CustomerTable.js:453-460 | the create request carries the form's username, password, name and phone (an empty phone standing for null), the chosen package or null, no reseller, and no payment_method field at all (so the server's default applies) |
| CustomerTable.AcceptedCustomerStoredHashed | frontend/src/components/Admin/Customers/CustomerTable.js:453-462 | a customer the form accepts is stored by the server as a CUSTOMER with the password hashed and the DAILY default |
| CustomerTable.ListedCustomers | frontend/src/components/Admin/Customers/CustomerTable.js:581-583 | exactly the users whose role is neither "ADMIN" nor "RESELLER" are listed |
| CustomerTable.ListedCustomersAppend | frontend/src/components/Admin/Customers/CustomerTable.js:581-583 | listing two tables in a row lists each in turn, so the screen keeps table order |
| CustomerTable.ListedCustomersSingle | frontend/src/components/Admin/Customers/CustomerTable.js:581-583 | a one-row table lists its row exactly when the role is neither "ADMIN" nor "RESELLER" |
| CustomerTable.EditForm | frontend/src/components/Admin/Customers/CustomerTable.js:408-420 | the edit form takes the customer's username, name and phone with an empty password, its role or "customer" when it has none, and a package only when the stored id is set and not 0 |
| CustomerTable.EditPatch | frontend/src/components/Admin/Customers/CustomerTable.js:491 | the update sends the whole form: username, name, phone, role and the package are set, the password as typed, and reseller, method and start date are untouched |
| CustomerTable.UnchangedEditKeepsCustomer | frontend/src/components/Admin/Customers/CustomerTable.js:408-420 | a customer with a role and a package id other than 0, opened for editing and saved unchanged, is stored as it was |
| CustomerTable.Table.constructor | frontend/src/components/Admin/Customers/CustomerTable.js:360-366 | the table starts with an empty form, no errors, nobody being edited and no reset target |
| CustomerTable.Table.OpenCreateModal | frontend/src/components/Admin/Customers/CustomerTable.js:396-406 | an empty form with role "customer" and no errors |
| CustomerTable.Table.CloseModals | frontend/src/components/Admin/Customers/CustomerTable.js:424-432 | nothing is being edited, no reset target, no new password and no errors; the form keeps its contents |
| CustomerTable.Table.OpenEditModal | frontend/src/components/Admin/Customers/CustomerTable.js:409-422 | a no-op on the signed-in user's own row; otherwise that customer is being edited with EditForm and no errors |
| CustomerTable.Table.CreateCustomer | frontend/src/components/Admin/Customers/CustomerTable.js:434-479 | a rejected form sends nothing and shows exactly the errors ValidateForm gives for it; an accepted form whose username is listed sends nothing and shows "Username already exists. Please choose another."; otherwise CreatePayload is sent, and after a successful request the dialogs close while a failed one leaves them as they were |
| CustomerTable.Table.UpdateCustomer | frontend/src/components/Admin/Customers/CustomerTable.js:481-507 | nothing without a customer being edited; a blank name sends nothing and shows "Name is required"; otherwise EditPatch of the whole form goes to that customer's id, and the dialogs close after a successful request |
| CustomerTable.Table.ResetPassword | frontend/src/components/Admin/Customers/CustomerTable.js:541-574 | the checks of ResetPasswordError come first and show their message with nothing sent; otherwise the new password goes to the chosen id, and the dialogs close after a successful request |
| ResellerTable.ValidateForm | frontend/src/components/Admin/Resellers/ResellerTable.js:351-365 | "name" and "phone" are reported exactly when blank; in create mode "username" exactly when blank and "password" exactly when CreatePasswordError finds one, with those messages; no other key; no errors exactly when the form is accepted |
| ResellerTable.CreatePayload | frontend/src/components/Admin/Resellers/ResellerTable.js:438-441 | the create request carries the form's username, name, phone and password |
| ResellerTable.UpdateData | frontend/src/components/Admin/Resellers/ResellerTable.js:466-470 | the update always sends name and phone, the password only when one is typed, and never the username, the role or the links |
| ResellerTable.EditKeepsUsernameAndStoresPlain | frontend/src/components/Admin/Resellers/ResellerTable.js:466-472 | an edit never renames the login or changes the role, and a typed password reaches the table unhashed through the server's update as written |
| ResellerTable.CustomerCount | frontend/src/components/Admin/Resellers/ResellerTable.js:818-821 | the count of customers of a reseller is at most the list's length, and 0 exactly when none has that reseller |
| ResellerTable.CustomerCountAppend | frontend/src/components/Admin/Resellers/ResellerTable.js:818-821 | counts add up over two lists |
| ResellerTable.CustomerCountReplace | frontend/src/components/Admin/Resellers/ResellerTable.js:818-821 | moving one customer away from a reseller lowers that reseller's count by one |
| ResellerTable.Table.constructor | frontend/src/components/Admin/Resellers/ResellerTable.js:341-348 | the table starts with an empty form, no errors and nobody being edited |
| ResellerTable.Table.OpenEditModal | frontend/src/components/Admin/Resellers/ResellerTable.js:388-398 | the reseller is being edited, the form holds its name, username and phone with an empty password, and no errors |
| ResellerTable.Table.CloseModals | frontend/src/components/Admin/Resellers/ResellerTable.js:400-408 | nothing is being edited, no reset target, no new password and no errors; the form keeps its contents |
| ResellerTable.Table.CreateReseller | frontend/src/components/Admin/Resellers/ResellerTable.js:410-454 | a rejected form sends nothing and shows exactly the errors ValidateForm gives for it; then a listed username shows the username message; then a listed name shows "Reseller name already exists. Please choose another."; otherwise CreatePayload is sent, and the dialogs close after a successful request |
| ResellerTable.Table.UpdateReseller | frontend/src/components/Admin/Resellers/ResellerTable.js:456-485 | nothing without a reseller being edited; a blank name or phone sends nothing and shows exactly the errors ValidateForm gives in edit mode, so only those; otherwise UpdateData goes to that reseller's id, and the dialogs close after a successful request |
| ResellerTable.Table.ResetPassword | frontend/src/components/Admin/Resellers/ResellerTable.js:516-543 | the checks of ResetPasswordError come first and show their message with nothing sent; otherwise the new password goes to the chosen id, and the dialogs close after a successful request |
| CustomerManagement.PackageInput | frontend/src/components/Admin/Resellers/CustomerManagement.js:411-417 | the package select gives null exactly for the empty value, and otherwise the integer parse of the value |
| CustomerManagement.PackageInputOfPrintedId | frontend/src/components/Admin/Resellers/CustomerManagement.js:415 | a package id printed into the select reads back as that id |
| CustomerManagement.JsonNumber | frontend/src/components/Admin/Resellers/CustomerManagement.js:440 | a NaN parse is sent as null, and a non-negative integer as its decimal digits |
| CustomerManagement.CreatePayload | frontend/src/components/Admin/Resellers/CustomerManagement.js:437-442 | the create request carries the form's username and password, the reseller id from the route parsed as an integer, null for an empty start date, and the form's payment method as a present field even when it is null |
| CustomerManagement.CreatedUnderReseller | frontend/src/components/Admin/Resellers/CustomerManagement.js:440 | a customer created on a reseller's page is connected by the server to that reseller |
| CustomerManagement.CreatedWithoutPackageHasNoMethod | frontend/src/components/Admin/Resellers/CustomerManagement.js:435-441 | the reseller form always sends payment_method, so the server's DAILY default never applies: a form whose method is still null creates a customer whose method is null |
| CustomerManagement.AssignIdsReadBack | frontend/src/components/Admin/Resellers/CustomerManagement.js:590-595 | the reseller id and package id of an assign request are read back by the server as the same numbers |
| CustomerManagement.UnassignedCustomers | frontend/src/components/Admin/Resellers/CustomerManagement.js:624-629 | a customer is offered exactly when it has no reseller and is not on this reseller's list |
| CustomerManagement.UnassignedNotMine | frontend/src/components/Admin/Resellers/CustomerManagement.js:624-629 | no customer already on this reseller's list is offered for assignment |
| CustomerManagement.MethodOf | frontend/src/components/Admin/Resellers/CustomerManagement.js:285 | no method exactly when no package carries the id; with unique ids, the method of the package carrying it |
| CustomerManagement.SelectedMethod | frontend/src/components/Admin/Resellers/CustomerManagement.js:283-294 | the assign picker's method is "" unless the choice is a true number naming a package, and then that package's method |
| CustomerManagement.SelectingPrintedIdBringsMethod | frontend/src/components/Admin/Resellers/CustomerManagement.js:283-294 | choosing a listed package by its printed id (ids unique and positive) brings that package's method |
| CustomerManagement.ChoiceMethod | frontend/src/components/Admin/Resellers/CustomerManagement.js:863-881 | the modal select sets the named package's method, and "" for a value that parses to NaN or names no package |
| CustomerManagement.PackageIdEffect | frontend/src/components/Admin/Resellers/CustomerManagement.js:296-313 | a true id naming a package sets its method, a true id naming none keeps the method, and null, NaN or 0 clears it to null |
| CustomerManagement.FormChoiceOfPrintedId | frontend/src/components/Admin/Resellers/CustomerManagement.js:296-313 | choosing a listed package by its printed id sets its method whether or not the effect runs; the empty choice leaves "" and, once the effect runs, null |
| CustomerManagement.Manager.ChooseFormPackage | frontend/src/components/Admin/Resellers/CustomerManagement.js:863-881 | the form's package id becomes the parsed choice and the method the handler's, then the effect's when the id changed; nothing else in the form changes |
| CustomerManagement.Manager.SelectPackage | frontend/src/components/Admin/Resellers/CustomerManagement.js:1172 | the picker holds `parseInt` of the value; when that differs from before, the method becomes SelectedMethod of it (the effect at lines 283-294), else it stays |
| CustomerManagement.Manager.constructor | frontend/src/components/Admin/Resellers/CustomerManagement.js:213-232 | nothing is selected, the password and method are empty and no notification is shown |
| CustomerManagement.Manager.SetPackageInput | frontend/src/components/Admin/Resellers/CustomerManagement.js:411-417 | only the form's package_id changes, to the parsed input |
| CustomerManagement.Manager.CreateCustomer | frontend/src/components/Admin/Resellers/CustomerManagement.js:429-456 | without a username or a password nothing is sent and an error is shown; otherwise exactly the create payload is sent |
| CustomerManagement.Manager.ResetPassword | frontend/src/components/Admin/Resellers/CustomerManagement.js:542-570 | an empty password is refused first, then a missing customer returns silently, then a password under six UTF-16 code units is refused (line 549); a request is sent exactly when a customer is selected and the password passes |
| CustomerManagement.Manager.AssignCustomer | frontend/src/components/Admin/Resellers/CustomerManagement.js:572-616 | without a customer "Please select a customer"; then without a package or a method the second error; otherwise the request with the customer, the route's reseller, the package, the method and the start date or null |
| ExportAllFilterModal.LaterTrichotomy | frontend/src/components/Admin/Payments/ExportAllFilterModal.js:30 | of two dates exactly one is later or they are the same day, and no day is later than itself |
| ExportAllFilterModal.LaterTransitive | frontend/src/components/Admin/Payments/ExportAllFilterModal.js:30 | the start-after-end comparison is transitive |
| ExportAllFilterModal.Dialog.constructor | frontend/src/components/Admin/Payments/ExportAllFilterModal.js:5-7 | both dates are empty and no customer is selected |
| ExportAllFilterModal.Dialog.SetStartDate | frontend/src/components/Admin/Payments/ExportAllFilterModal.js:5 | only the start date changes, and the selection keeps no duplicates |
| ExportAllFilterModal.Dialog.SetEndDate | frontend/src/components/Admin/Payments/ExportAllFilterModal.js:6 | only the end date changes, and the selection keeps no duplicates |
| ExportAllFilterModal.Dialog.ToggleUserSelection | frontend/src/components/Admin/Payments/ExportAllFilterModal.js:17-23 | the id is selected afterwards exactly when it was not before, no other id changes, and the selection keeps no duplicates |
| ExportAllFilterModal.Dialog.Close | frontend/src/components/Admin/Payments/ExportAllFilterModal.js:9-15 | closing clears both dates and the selection |
| ExportAllFilterModal.Dialog.HandleConfirm | frontend/src/components/Admin/Payments/ExportAllFilterModal.js:25-35 | a missing date is refused first, then a start after the end; the export is confirmed exactly when both dates are set and in order, with the two dates and the selected ids |
| Text.Lower | frontend/src/components/Admin/Packages/PackageList.js:50-51 | toLowerCase keeps the length and lower-cases each character |
| Text.Upper | backend/controllers/authController.js:35 | toUpperCase keeps the length and upper-cases each character |
| Text.UpperHasNoLowerCase | backend/controllers/authController.js:35 | an upper-cased role holds no lower-case letter |
| Text.ContainsAt | frontend/src/components/Admin/Packages/PackageList.js:50-51 | includes holds exactly when the needle occurs at some position of the haystack |
| Text.ContainsEmpty | frontend/src/components/Admin/Packages/PackageList.js:50-51 | every string includes the empty string |
| Text.TrimStart | frontend/src/components/Admin/Customers/CustomerTable.js:374 | trimming the start removes exactly a leading run of white space: the rest is a suffix that does not begin with white space, and every character removed is white space |
| Text.TrimEnd | frontend/src/components/Admin/Customers/CustomerTable.js:374 | trimming the end removes exactly a trailing run of white space: the rest is a prefix that does not end with white space, and every character removed is white space |
| Text.Trim | frontend/src/components/Admin/Customers/CustomerTable.js:374 | trim removes white space at the two ends only: the result occurs in the input at a position where everything before it and everything after it is white space, and it neither begins nor ends with white space |
| Text.BlankIffTrimmedEmpty | frontend/src/components/Admin/Customers/CustomerTable.js:374-378 | a value fails `!value.trim()` exactly when every character of it is white space |
| Text.TrimStartAllSpace | frontend/src/components/Admin/Customers/CustomerTable.js:374 | trimming the start empties a string exactly when it is all white space |
| Text.LexLessIrreflexive | backend/controllers/paymentController.js:41 | no date string sorts before itself |
| Text.LexLessTransitive | backend/controllers/paymentController.js:41 | the string order of payment dates is transitive |
| Text.LexLessTotal | backend/controllers/paymentController.js:41 | any two different date strings are ordered one way or the other |
| Text.LexLessEqTotal | backend/controllers/paymentController.js:41 | the non-strict order on date strings is total |
| Text.LexLessEqTransitive | backend/controllers/paymentController.js:41 | the non-strict order on date strings is transitive |
| Text.DecimalString | frontend/src/components/Admin/Products/ProductForm.js:47 | toString of a natural number is a non-empty digit string with no leading zero except for 0 itself |
| Text.DecimalRoundTrip | frontend/src/components/Admin/AdminPanel.js:250 | a printed number reads back as itself |
| Text.LeadingDigits | backend/controllers/userController.js:14 | parseInt reads the longest run of digits at the start |
| Text.LeadingDigitsOfDigits | backend/controllers/userController.js:14 | an all-digit string is read whole |
| Text.ParseInt | backend/controllers/userController.js:14 | a blank text is NaN; a non-empty all-digit text reads as its decimal value; "0x" or "0X" followed by hexadecimal digits reads as their base-16 value, and NaN when no digit follows |
| Text.Signed | backend/controllers/userController.js:14 | after leading white space: nothing is NaN, all digits read in decimal, and a "0x" prefix reads the rest in base 16 |
| Text.ReadDigits | backend/controllers/userController.js:14 | the digits after the sign are read in base 16 after a "0x" prefix and in base 10 otherwise; a number is read only from a non-empty text and is never negative |
| Text.LeadingHexDigits | backend/controllers/userController.js:14 | the hexadecimal reading takes the longest run of hexadecimal digits |
| Text.HexReadWhole | backend/controllers/userController.js:14 | a "0x" text of hexadecimal digits has no leading white space and its digits are read whole |
| Text.ParseIntReadsHex | backend/controllers/userController.js:14 | "0x1A" reads as 26 and "0x" alone as NaN |
| Text.DigitsReadWhole | backend/controllers/userController.js:14 | a non-empty all-digit text has no leading white space and is read whole |
| Text.ParseIntRoundTrip | backend/controllers/userController.js:14 | parseInt of a printed natural number gives that number |
| Text.IntStringRoundTrip | frontend/src/components/Admin/Customers/CustomerTable.js:419 | any integer, a negative one included, is printed so that parseInt reads back the same integer |
| Text.Utf16Length | frontend/src/components/Admin/Customers/CustomerTable.js:379 | `length` counts UTF-16 code units: at least one and at most two per character |
| Text.Utf16LengthAppend | frontend/src/components/Admin/Customers/CustomerTable.js:379 | the length of a concatenation is the sum of the lengths |
| Text.Utf16LengthOfBmp | frontend/src/components/Admin/Customers/CustomerTable.js:379 | the length equals the character count exactly when no character lies above U+FFFF |

## Left out

- I/O is not modelled: the axios and `api` requests, `alert`, toasts and notifications, `localStorage`, navigation, console logging and every loading flag. A request's outcome is a parameter where a handler branches on it (`AdminPanel.Panel.HandlePaymentSubmitFixed`, the `succeeded` flag of the table methods), and otherwise the model returns the request it would send.
- The clock is a parameter: "today" is passed in wherever a screen reads `new Date()`.
- Async sequencing, `setTimeout` dismissals and re-fetches after a request are not modelled.
- bcrypt and JWT are uninterpreted: a hash is `Hashed(p)`, a token is `Token(id, role)`, and hashing never fails.
- Prisma and SQLite are not modelled. The tables are sequences with ascending ids. Foreign keys and their cascades are not modelled beyond what `deletePackage` does explicitly.
- The non-atomic transaction in `addBulkPayments` is modelled as all inserts succeeding in order. A failing statement midway is not modelled.
- Sort ties: `ORDER BY payment_date DESC` is modelled by an insertion sort on the date string. The database's order among equal dates is not fixed by the model.
- Text.Lower: Prisma's `mode: "insensitive"`, `toLowerCase` and `toUpperCase` are modelled on the ASCII letters only. Other Unicode case mappings are not modelled.
- UserController: route ids (`parseInt(req.params.id)` at userController.js:31, 61, 128, 201, 231, 287, 316, 351, 371, 387, 417) are taken as integers. A non-numeric route id, which gives NaN and the 500 of the ORM's validation error, is not modelled. That 500 is modelled only for ids read from the body or the query (`reseller_id`, `package_id`). A missing name or phone is stored as "". PackageController.GetPackageById, PackageController.UpdatePackage and PackageController.DeletePackage likewise take the route id as an integer, where `Number(req.params.id)` (packageController.js:129, 183, 193, 199, 204) gives NaN for a non-numeric id, and the ORM's 500 for it is not modelled.
- `confirmPayment` is defined twice in backend/controllers/userController.js. The later definition, at lines 415-451, is the one exported. The earlier one at 247-283 does the same and is not modelled separately.
- PackageController: the first `updatePackage` (backend/controllers/packageController.js:51-85) is overridden by the second and is not modelled. The stubs `handlePayment` and `getPaymentStatus` in that file (45-49 and 87-91) are not modelled either. The payment handlers of those names are the ones in backend/controllers/paymentController.js.
- backend/routes/paymentRoutes.js names eight handlers, and backend/controllers/paymentController.js exports none of them as a request handler. Six are not defined there: `createPayment` (line 6), `getPaymentsByCustomerId` (line 12), `getPaymentSummary` (line 18), `getPaidDatesByUserId` (line 21), `getPaymentHistoryByCustomerId` (line 26) and `getAllPaymentsForExport` (line 30). Express refuses an undefined route handler with an error when the route is declared, so the `require("./routes/paymentRoutes")` at backend/server.js:9 throws and the server stops at start. The other two are defined but are not (req, res) handlers. `getAllPayments` (line 9) takes no arguments and never answers the request. `updatePaymentStatus` (line 15) would receive the request and response as its `(id, status)`. None of these routes is modelled, and neither is the failed start: the other handlers are modelled as they would behave on a server that starts. No server-side duplicate-date check and no cancellation rollback exist, and none is modelled.
- CustomerPanel.DailyRate: the daily rate is a `real`, computed exactly. JavaScript's floating-point rounding of `amount / 7` and `amount / 30` is not modelled.
- The paid-percentage bar of the payment table is not modelled, because it is floating point. `toLocaleString` formatting is not modelled either.
- PaymentCalendar: dates are (year, month, day) values printed as yyyy-MM-dd. The UTC shift of `toISOString()` at PaymentCalendar.js:60 and 90 is not modelled. In time zones ahead of UTC it writes the previous day.
- CustomerPanel: the calendar's `eachDayOfInterval` listing is not modelled. The end-date rule and the selectable-day test are modelled, with month arithmetic of their own in place of date-fns `addDays` and `addMonths`.
- PaymentConfirmationModal: the "now"-relative 30-day date window (lines 60-64) is not modelled. Nor is the module's use of `useEffect` and `format` without importing them.
- AdminPanel: `handlePaymentSubmit` and `handleConfirmPayment` are passed to `PaymentConfirmation`, which takes only `customers` and `packages` (frontend/src/components/Admin/Payments/PaymentConfirmation.js:5), so neither is ever called; they are modelled as the handlers they are. The `payment_history` entry that the intended `handlePaymentSubmit` appends (a formatted date, the amount and the dates) is not modelled: `Domain.User` has no such field, and as written the entry is never built because `format` raises first. That the raise happens while React renders, which unmounts the panel, is not modelled either; `AdminPanel.SubmitAsWritten` keeps the list and reports a rejected promise. The lines at 470-490 and 621-647 reference undefined identifiers and are not modelled. `handlePackageChange` and the product handlers are not modelled. The amount read by `parseFloat(value) \|\| 0` is modelled as a natural number, so decimals and precision above 2^53 are not modelled.
- PackageList: the add-product picker shares `currentPage` with the package list. The model takes the page as a parameter of `PackageList.PickerProducts`. A package description that is null, which would make the search throw, is not modelled.
- ExportAllFilterModal: date inputs are modelled as `Option<Date>`, empty or a valid calendar date, and the dates are passed on as yyyy-MM-dd strings.
- CustomerManagement.Manager.SelectPackage: the two effects are modelled as running right after the choice that changes their dependency. Their run on the first render is not modelled. `parseInt` of a number (the effect at lines 296-313) is taken as that number, so exponent forms such as 1e21 are not modelled.
- CustomerManagement: `updateCustomer` (CustomerManagement.js:458-483), `deleteCustomer`, `unassignCustomer` and the fetches are not modelled. They send requests without guards of their own. `getPackageName` (619-622) is the same lookup as `Domain.PackageName`.
- UserController.UserPatch: a PUT body may carry any column. The patch covers the columns the screens send and the profile columns. A body that sets `id`, `paid_amount`, `last_payment_date`, `paid_dates` or `payment_days` is not modelled.
- UserController.ConfirmPayment: the amount is an optional integer. A JSON null amount, which adds 0, and a string amount, which concatenates, are not modelled. The unused `packageId` is taken and ignored.
- `payment_days` is a column that no core handler writes; the model carries it unchanged.
- Domain.User: the database schema is not part of this model. The `payment_method` column is taken as nullable, so a null sent in a create request is stored as null and not replaced by DAILY, whose default applies only to an absent field (userController.js:149). A database-level default is not modelled, and the accounts created without any method (`register`, `createReseller`) hold null.
- CustomerTable.EditPatch: the package select holds text, and `updateCustomer` sends it as it is, which the server spreads into an integer column. The model reads that text with `parseInt`, as `createCustomer` does; a refusal of the text by the database is not modelled.
- CustomerTable.CreatePayload: the phone is a string, and an empty phone stands for the null the form sends.
- PackageList.ProductsTotal: a product always has a price in the model, so the `|| 0` fallback for a missing price is not modelled.
- PackageController.CreateRequest: `payment_amount` is an integer, where `createPackage` reads it with `parseFloat`; fractional amounts are not modelled.
- The UI is not modelled: rendering, modals, styling and the pure-display pages.
- Routing and middleware are not modelled. Neither are the Sequelize/SQL pass-through controllers outside the core.

## Findings

| source | as written | input that shows it | evidently intended | confidence | as-written member | corrected member |
|---|---|---|---|---|---|---|
| frontend/src/components/Admin/AdminPanel.js:526 | the bulk record reads `paymentmonths`, which is not defined (the state is `paymentMonths`), so the `map` throws | a selected customer and package with `selectedDates = ["2024-03-01"]`: the ReferenceError is caught at line 532 and `/payments/bulk` is never called | each record carries `payment_months: paymentMonths`, and the batch is posted | not executed | AdminPanel.AsWrittenNeverPosts | AdminPanel.ConfirmOutcome |
| frontend/src/components/Admin/AdminPanel.js:669 | the updater calls `format(new Date(paymentData.paymentDate))` with no format string, which date-fns (version 2 on) refuses with a TypeError; and `toast`, used at lines 681 and 684, is not among the imports at lines 1-17 | a successful POST for a listed customer with amount 50000: the updater raises, so the customer keeps the old paid amount, and the success toast raises a ReferenceError that the catch block repeats | format the date with a format string, import `toast`, and credit the customer | not executed | AdminPanel.SubmitAsWrittenLosesPayment | AdminPanel.SubmitFixed |
| backend/controllers/userController.js:334-339 | `createReseller` stores `req.body.password` as sent. `updateReseller` (356-359) stores a sent password unhashed too, while every other account's password is hashed | create a reseller with username "r1" and password "secret", then log in as "r1" with "secret": `bcrypt.compare` against the unhashed text fails, giving 401 | hash the password as `createCustomer` and `register` do, so the reseller can log in | not executed | AuthController.CreatedResellerCannotLogIn | AuthController.HashedResellerCanLogIn |

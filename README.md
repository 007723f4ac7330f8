# Credit-card bot: the form wizard, the card store and the event handlers

This project models the core of a Telegram bot that keeps a user's credit
cards and their monthly bills. Three pieces hold the logic.

- **The form manager** (`src/form_manager.py`). It holds the field
  validators and a per-user session: a `FormState` plus a scratch map of
  field name to text, kept in the store's session table.
- **The card store** (`src/database.py`). It holds a table of card rows
  unique per user and card number, a table of sessions with one row per
  user, and the billing updates. Those updates do calendar-month arithmetic
  on dates.
- **The wizard** (`src/handlers.py`). It handles text messages in each
  waiting state, the field buttons, "Done" and "Cancel", the set-billing,
  update-amount and grace-days sub-flows, and the prefix dispatch of button
  payloads.

The Dafny modules follow that structure:

| file | module | what it holds |
|---|---|---|
| `wrappers.dfy` | `Wrappers` | `Option` |
| `text.dfy` | `Text` | the Python string built-ins the source uses: digit filtering, `int()`/`str()` on ASCII, `split`, `replace`, lower-casing, substring search |
| `dates.dfy` | `Dates` | Gregorian dates, the one-month step and the next-bill-date rule |
| `database.dfy` | `Database` | the `DatabaseManager` class: `cards: seq<Card>`, an id counter `nextId`, and `sessions: map<int, SessionRow>`; each mutator is proved equal to a pure function on the table |
| `form_manager.dfy` | `Forms` | `FormState`, the validators, the session rewrites as pure functions, and the `FormManager` class that performs them on a `DatabaseManager` |
| `wizard.dfy` | `Wizard` | each event as a pure step from the whole store to an `Outcome` and a new store, plus lemmas on whole conversations and on isolation between users |
| `handlers.dfy` | `Handlers` | the `CreditCardHandlers` class; each handler makes the source's calls in the source's order and is proved to have exactly the effect of its `Wizard` step |

Each handler returns an abstract `Outcome` (`Rejected`, `Stored`, `Saved`,
`Duplicate`, `Updated`, `NotFound`, ...) where the source sends a rendered
message. "Today" is a parameter of every operation that reads the clock.

`Database.StoreScenario` is an example client of the store, written as a
method of assertions. It mirrors the add, duplicate-add, wrong-user and delete cases of
`tests/test_database.py` (`test_add_credit_card_success`,
`test_add_duplicate_card`, `test_get_card_by_id_wrong_user`, `test_delete_card_success`,
`test_delete_card_wrong_user`), and shows that the store's contracts are
strong enough to settle each of them.

## Model

| member | source | states |
|---|---|---|
| `Text.DigitsOnly` | src/form_manager.py:126 | the result holds only digits and is no longer than the input |
| `Text.DigitsOnlyCounts` | src/form_manager.py:126 | filtering keeps every digit as often as it occurs and drops everything else |
| `Text.ParseShowInt` | src/handlers.py:589 | `int(str(n)) == n`: a printed id read back is the same id |
| `Text.SplitJoin` | src/form_manager.py:141 | `split` gives one more piece than there are separators, the pieces hold no separator, and joining them gives back the text |
| `Text.SplitTwo` | src/form_manager.py:141 | two separator-free texts around one separator split into exactly those two |
| `Text.Without` | src/form_manager.py:174 | removing characters leaves none of them and never lengthens the text |
| `Text.WithoutCounts` | src/form_manager.py:174 | removing characters keeps every other character as often as it occurs |
| `Text.WithoutAppend` | src/form_manager.py:174 | removing characters from a concatenation removes them from each part |
| `Text.ParseNatPositive` | src/form_manager.py:175-176 | a digit string denotes a positive number exactly when one of its digits is not zero |
| `Text.RemovePrefix` | src/handlers.py:410 | `replace(prefix, "")` on a prefix followed by text free of the prefix's first letter gives back that text |
| `Dates.AddOneMonth` | src/database.py:286-290 | the same day one month later, December rolling into January; `None` exactly when that day does not exist in the following month |
| `Dates.NextBillDate` | src/database.py:239-246 | the billing day in this month if it is later than today, otherwise in the next month; the result is after today and falls on the billing day; `None` exactly when the day does not exist where it lands |
| `Dates.NextBillDateIsEarliest` | src/database.py:239-246 | the next bill date is the earliest date after today that falls on the billing day |
| `Dates.AddOneMonthExamples` | src/database.py:286-290 | 2025-01-15 becomes 2025-02-15, December rolls over, and 31 January has no successor (no clamping) |
| `Database.IndexOf` | src/database.py:138-152 | finds a row matching both the user and the id, or none exists |
| `Database.NewestFirst` | src/database.py:121-136 | a user's selection holds exactly the rows the filter keeps, in descending id order |
| `Database.SortByDue` | src/database.py:304-320 | `ORDER BY next_bill_date`: sorted by due date and a permutation of its input |
| `Database.Added` | src/database.py:100-119 | the insert fails exactly when the user already has a card with that number; otherwise one new row is appended with the column defaults |
| `Database.Deleted` | src/database.py:171-184 | fails exactly when no row matches both user and id; otherwise exactly the matching rows are gone and id order is kept |
| `Database.PaidRow` | src/database.py:276-297 | last bill date becomes the old next bill date, which moves one month on (from today when unset) with the same day, and status becomes paid; nothing else in the row changes |
| `Database.MarkedPaid` | src/database.py:260-302 | fails exactly when no row matches or the date does not exist one month on; otherwise only the matching row is replaced, by its paid form |
| `Database.BillingUpdated` | src/database.py:229-258 | fails exactly when the next bill date does not exist or no row matches; otherwise only the matching row gets the billing day, amount, grace days, next bill date and pending status |
| `Database.AmountUpdated` | src/database.py:340-354 | fails exactly when no row matches; otherwise only that row's amount changes |
| `Database.GraceUpdated` | src/database.py:356-369 | fails exactly when no row matches; otherwise only that row's grace days change |
| `Database.WritesAreIsolated` | src/database.py:100-369 | any insert, delete or update by one user leaves every selection of another user's rows as it was |
| `Database.DatabaseManager.constructor` | src/database.py:11-13 | an empty store whose first id is 1 |
| `Database.DatabaseManager.AddCreditCard` | src/database.py:100-119 | `true` exactly when the user has no card with that number; then the new row is readable under the next id and the counter moves on, otherwise nothing changes; ids stay ascending and numbers stay unique per user |
| `Database.DatabaseManager.AppendKeepsInvariant` | src/database.py:39 | appending a row under the next id whose number is new for its user keeps the table's uniqueness and id order |
| `Database.DatabaseManager.GetUserCards` | src/database.py:121-136 | exactly the user's rows, newest first |
| `Database.DatabaseManager.GetCardById` | src/database.py:138-152 | the row with that id only if it belongs to the user; another user's card reads like a missing one |
| `Database.DatabaseManager.GetCardsByBankOrNumber` | src/database.py:154-169 | exactly the user's rows whose bank name or number contains the term, ignoring ASCII case, newest first |
| `Database.DatabaseManager.DeleteCard` | src/database.py:171-184 | `true` exactly when a row matching both user and id existed; that row is gone, all others stay, and every other user's cards read the same |
| `Database.DatabaseManager.SaveUserSession` | src/database.py:186-198 | an upsert: the user's session is replaced, every other user's session and the cards stay |
| `Database.DatabaseManager.GetUserSession` | src/database.py:200-214 | the user's session row when there is one, and nothing otherwise |
| `Database.DatabaseManager.ClearUserSession` | src/database.py:216-227 | the user's session is gone; the others and the cards stay |
| `Database.DatabaseManager.UpdateBillingInfo` | src/database.py:229-258 | its result and new table are those of `BillingUpdated`; the invariant holds |
| `Database.DatabaseManager.MarkBillPaid` | src/database.py:260-302 | its result and new table are those of `MarkedPaid`; the invariant holds |
| `Database.DatabaseManager.GetPendingBills` | src/database.py:304-320 | exactly the user's pending rows with a due date, earliest first |
| `Database.DatabaseManager.GetDueBills` | src/database.py:322-338 | exactly the user's pending rows due on or before today, earliest first |
| `Database.DatabaseManager.UpdateBillAmount` | src/database.py:340-354 | its result and new table are those of `AmountUpdated` |
| `Database.DatabaseManager.UpdatePaymentGraceDays` | src/database.py:356-369 | its result and new table are those of `GraceUpdated` |
| `Forms.ValidateCardNumber` | src/form_manager.py:118-133 | an accepted number holds only digits, spaces and dashes, with 4 to 19 digits; `DigitStringCardNumber`, `SeparatorIgnored` and `CardNumberExamples` pin it to exactly 4 or 13..19 digits |
| `Forms.ValidateExpiryDate` | src/form_manager.py:135-153 | an accepted expiry contains a `/`; `ExpiryOfFormatted`, `ExpiryOfDigits` and `ExpiryHasOneSlash` state the month and year ranges and the single slash |
| `Forms.ValidateCvv` | src/form_manager.py:155-160 | an accepted CVV is 3 or 4 digits |
| `Forms.ValidateBillingDate` | src/form_manager.py:162-168 | an accepted billing day parses with `int()` to a value in 1..31 |
| `Forms.ValidateGraceDays` | src/form_manager.py:180-185 | an accepted grace period parses with `int()` to a value in 1..60 |
| `Forms.ValidateBillAmount` | src/form_manager.py:170-178 | an accepted amount leaves a non-empty text once `$`, `,` and spaces are removed; `AmountValue` and `AmountExamples` tie the verdict to the amount's value |
| `Forms.ParseState` | src/form_manager.py:28-37 | `FormState(text)` finds the state whose value is the text, and fails exactly when there is none |
| `Forms.CardDigitsAccepted` | src/form_manager.py:118-133 | the digits of an accepted number, and their last four, pass the same check |
| `Forms.LastFourAccepted` | src/handlers.py:340 | the last four characters of an accepted digit string are four digits and pass the card-number check on their own |
| `Forms.DigitStringCardNumber` | src/form_manager.py:118-133 | a digit string is accepted exactly when it has 4 or 13 to 19 digits |
| `Forms.SeparatorIgnored` | src/form_manager.py:118-133 | a space or a dash anywhere does not change the verdict |
| `Forms.CardNumberExamples` | src/form_manager.py:118-133 | "1234" and 19 digits pass; "123", "12345", 20 digits and "abc1234" fail |
| `Forms.ExpiryOfFormatted` | src/form_manager.py:135-153 | `MM/YYYY` with a real month is accepted exactly when the year is in 2020..2030 |
| `Forms.ExpiryOfDigits` | src/form_manager.py:135-153 | digits, a slash, digits: accepted exactly when the month is 1..12 and the year 2020..2030 |
| `Forms.ExpiryHasOneSlash` | src/form_manager.py:135-153 | an accepted expiry has exactly one slash; a text without one is rejected rather than raising |
| `Forms.CvvExamples` | src/form_manager.py:155-160 | "123" and "1234" pass; "12", "12345", "12a" and "" fail |
| `Forms.NumbersOfPrinted` | src/form_manager.py:162-168 | a printed integer is a valid billing day exactly in 1..31 and a valid grace period exactly in 1..60 |
| `Forms.CleanAmount` | src/form_manager.py:174 | the cleaned amount holds no `$`, `,` or space |
| `Forms.CleanedAmountAccepted` | src/form_manager.py:170-178 | cleaning is idempotent; an accepted amount cleans to a non-empty accepted amount |
| `Forms.AmountValue` | src/form_manager.py:170-178 | for ASCII digit strings `a` and `b`, `a` is accepted exactly when `int(a) > 0`, and `a.b` exactly when its value `int(a) * 10^len(b) + int(b)` (in units of `10^-len(b)`) is positive: `float(x) > 0` on plain decimals |
| `Forms.AmountExamples` | src/form_manager.py:170-178 | "150.00", "$1,500" and ".5" pass; "0", "0.00", ".", "", "1.2.3" and "abc" fail |
| `Forms.AmountNoiseIgnored` | src/form_manager.py:170-178 | a `$`, `,` or space anywhere changes neither the cleaned text nor the verdict |
| `Forms.UnknownStateReadsIdle` | src/form_manager.py:69-78 | a stored state that is no `FormState` value reads as IDLE |
| `Forms.Started` | src/form_manager.py:45-56 | any session is replaced by IDLE and five empty fields; other users keep theirs |
| `Forms.WithState` | src/form_manager.py:80-83 | the state changes and the scratch map is kept (an empty one when there was none); other users keep theirs |
| `Forms.WithField` | src/form_manager.py:85-94 | fails exactly when there is no form data; otherwise only the named key changes and the state is kept |
| `Forms.Cleared` | src/form_manager.py:114-116 | no form data and IDLE afterwards; other users keep theirs |
| `Forms.AllFilledIff` | src/form_manager.py:103-106 | the loop over required fields succeeds exactly when every one is non-empty |
| `Forms.RequiredFilled` | src/form_manager.py:103-106 | the required fields are bank name, card number and expiry date |
| `Forms.FormComplete` | src/form_manager.py:96-112 | complete exactly when there is non-empty form data, the three required fields are non-empty, and a full card number comes with a CVV |
| `Forms.StartedIncomplete` | src/form_manager.py:96-112 | a freshly started form is not complete |
| `Forms.FormManager.GetFormData` | src/form_manager.py:58-67 | reads `FormDataOf` of the store's sessions: no form data without a session, otherwise the session's stored form data |
| `Forms.FormManager.GetCurrentState` | src/form_manager.py:69-78 | reads `StateOf` of the store's sessions: IDLE without a session; otherwise the stored state, or IDLE when the stored text is no `FormState` value (`UnknownStateReadsIdle`) |
| `Forms.FormManager.IsFormComplete` | src/form_manager.py:96-112 | `FormComplete` of the stored form data, whose contract gives the exact condition |
| `Forms.FormManager.constructor` | src/form_manager.py:42-43 | the manager works on the store it is given |
| `Forms.FormManager.StartAddCardForm` | src/form_manager.py:45-56 | returns the empty form; the sessions become `Started`; the cards stay |
| `Forms.FormManager.SetState` | src/form_manager.py:80-83 | the sessions become `WithState`; the cards stay |
| `Forms.FormManager.UpdateFormField` | src/form_manager.py:85-94 | `true` exactly when `WithField` succeeds, whose sessions it then stores; nothing changes otherwise |
| `Forms.FormManager.ClearForm` | src/form_manager.py:114-116 | the sessions become `Cleared`; the cards stay |
| `Wizard.RouteOf` | src/handlers.py:273-300 | the `form_field_` route exactly for that prefix, carrying the payload with every occurrence of `form_field_` removed (so `form_field_form_field_cvv` names the field `cvv`, as `replace` at src/handlers.py:410 does); a payload matching no prefix and no fixed name is only answered |
| `Wizard.IdPayload` | src/handlers.py:581 | `int(data.replace(prefix, ""))` on a button's payload gives back the card id |
| `Wizard.RouteOfPayload` | src/handlers.py:273-300 | every button payload is dispatched to the handler it was made for; no earlier prefix shadows a later one |
| `Wizard.LastFour` | src/handlers.py:340 | Python's `s[-4:]`: the last four characters, or all of a shorter text |
| `Wizard.CardIdOf` | src/handlers.py:741-744 | a card id only when `card_id` is stored, parses, and is not the falsy zero; that id is what it parses to |
| `Wizard.BillingPlan` | src/handlers.py:733-782 | an early return exactly when the amount is missing or empty; otherwise the card id from `CardIdOf` and the stored amount, with billing info exactly when a billing day is stored (a day `int()` rejects is `BadValue`), else the amount alone |
| `Wizard.GracePlan` | src/handlers.py:784-813 | an early return exactly when grace days are missing or empty; otherwise the card id from `CardIdOf` and the parsed number of days, `BadValue` when `int()` rejects it |
| `Wizard.AcceptedValuesParse` | src/handlers.py:733-813 | a form whose billing day and grace period were accepted never yields `BadValue`, so the `int()` at 752 and 801 cannot raise; the values lie in 1..31 and 1..60 |
| `Wizard.Commit` | src/handlers.py:746-780 | only a plan that reaches the store changes the table, and exactly those end in `Updated` or `Failed` |
| `Wizard.Complete` | src/handlers.py:733-813 | after a store call the session is cleared whether it succeeded or not; an early return for a missing value or card id changes nothing |
| `Wizard.AcceptedStep` | src/handlers.py:316-406 | an accepted text is never reported as rejected or ignored; it keeps the id counter and other users' sessions, and only the amount and grace-days states can touch the cards; in the four add-card states the write `Entered` describes always happens, and the outcome is `Stored` exactly when `_show_form_status` then runs to its end (no form data, an empty form, or all four shown fields present), `Crashed` otherwise |
| `Wizard.TextStep` | src/handlers.py:302-406 | IDLE ignores the text and changes nothing; a text is rejected exactly when it fails the waiting field's validator, and then nothing changes; only the amount and grace-days states can touch the cards; other users' sessions are kept |
| `Wizard.FieldStep` | src/handlers.py:408-431 | exactly the four field buttons prompt, each setting its own waiting state and keeping the form; any other field changes nothing |
| `Wizard.DoneStep` | src/handlers.py:433-471 | an incomplete form changes nothing; a complete one is saved exactly when the user has no card with that number, as a new row under the next id with its CVV and full number, and then the session is cleared; a duplicate keeps the session |
| `Wizard.CancelStep` | src/handlers.py:473-476 | the session is cleared and the cards are never touched |
| `Wizard.LookStep` | src/handlers.py:513-533 | reads only; `NotFound` exactly when the user has no such card, `Shown` otherwise |
| `Wizard.SeedStep` | src/handlers.py:579-631 | when the card is the user's, a session holding only the card id in the given waiting state; otherwise `NotFound` and nothing changes |
| `Wizard.ConfirmDeleteStep` | src/handlers.py:535-555 | deletes exactly when the user has the card; otherwise `NotFound` and nothing changes |
| `Wizard.MarkPaidStep` | src/handlers.py:557-577 | `NotFound` exactly when the user has no such card; for the user's card the outcome is `Updated` exactly when `MarkedPaid` succeeds, and `Failed` otherwise; an update is that of `MarkedPaid`; anything else changes nothing |
| `Wizard.CallbackStep` | src/handlers.py:264-300 | an error exactly when an id-carrying payload's id is not an integer; only "Done" can consume an id |
| `Wizard.RouteStep` | src/handlers.py:273-300 | each route's handler; the same two facts per route |
| `Wizard.SeededCardId` | src/handlers.py:741-744 | the card id seeded for a card of the table is never the falsy zero, and reads back as that id |
| `Wizard.UpdateAmountFlow` | src/handlers.py:382-394 | the update-amount button then an accepted amount stores the cleaned amount on that card and ends the conversation |
| `Wizard.SetBillingFlow` | src/handlers.py:370-394 | the set-billing button, an accepted day, then an accepted amount set the billing day, the cleaned amount, 21 grace days and the next bill date, and end the conversation; the update fails only when that day does not exist where it lands |
| `Wizard.GraceDaysFlow` | src/handlers.py:396-406 | the grace-days button then an accepted number stores that grace period and ends the conversation |
| `Wizard.Entered` | src/handlers.py:316-406 | the write each waiting state makes: the state returns to IDLE, or after a billing day moves to WAITING_BILL_AMOUNT; a card number goes through the card-number writes, any other text into its own field (an amount cleaned of `$`, `,` and spaces); other users' sessions are kept |
| `Wizard.CardNumberEntry` | src/handlers.py:325-344 | four digits are written to `card_number` alone; a full number puts its digits in `full_card_number` and its last four in `card_number`; the stored number is always four digits; `Stored` exactly when the new form holds the four shown fields, else `Crashed` |
| `Wizard.FieldEntry` | src/handlers.py:316-380 | an accepted bank name, expiry date, CVV or billing day is written as typed and nothing else in the form changes; the state returns to IDLE, or after the day moves to WAITING_BILL_AMOUNT; a billing day is `Stored`, the others are `Stored` exactly when the new form holds the four shown fields, else `Crashed` |
| `Wizard.BillingDayEntry` | src/handlers.py:370-380 | an accepted billing day is written, the state moves to WAITING_BILL_AMOUNT, the outcome is `Stored` and the cards stay |
| `Wizard.CompletingEntry` | src/handlers.py:382-406 | an accepted amount, with `$`, `,` and spaces removed, or an accepted number of days is written, and the message completes the sub-flow with the plan the resulting form yields |
| `Wizard.FieldThenText` | src/handlers.py:408-431 | a field button followed by an accepted text writes exactly that field; `Stored` exactly when the new form holds the four shown fields, else `Crashed` |
| `Wizard.NumberThenText` | src/handlers.py:416-417 | the card-number button followed by an accepted number writes the number fields as above; `Stored` exactly when the new form holds the four shown fields, else `Crashed` |
| `Wizard.StaleButtonCrashes` | src/handlers.py:408-431 | a field button pressed with no session (a stale message) prompts, and the accepted text that follows writes its field into an otherwise empty form and then crashes in `_show_form_status` (src/handlers.py:505) |
| `Wizard.StartedHasStatusKeys` | src/form_manager.py:45-56 | the form /add_card starts holds all four fields `_show_form_status` shows |
| `Wizard.StatusKeysKept` | src/handlers.py:302-431 | a form holding the four shown fields keeps them through any field button and any text outside the amount and grace-days states, and such a text never crashes |
| `Wizard.ShownFieldThenText` | src/handlers.py:408-431 | on such a form, a field button and an accepted bank name, expiry or CVV end in `Stored` |
| `Wizard.ShownNumberThenText` | src/handlers.py:416-417 | on such a form, the card-number button and an accepted number end in `Stored` |
| `Wizard.AddCardTexts` | src/handlers.py:97-134 | after /add_card, each of the four field buttons followed by an accepted text ends in `Stored`, the cards and the id counter stay, and the form is the typed card's |
| `Wizard.AddCardFormFields` | src/handlers.py:446-456 | the filled-in form holds the typed bank name, expiry and CVV, the last four digits and the full number |
| `Wizard.DoneOnAddCardForm` | src/handlers.py:433-471 | "Done" on that form saves the card exactly when the user has no card with those last four digits |
| `Wizard.AddCardFlow` | src/handlers.py:97-134 | /add_card, the four field buttons each followed by an accepted text, then "Done", saves exactly the typed card under the next id unless it is a duplicate; none of the four texts crashes |
| `Wizard.CommitIsolated` | src/handlers.py:746-802 | a completion leaves every other user's cards as that user sees them |
| `Wizard.TextIsolated` | src/handlers.py:302-406 | a text message from one user changes neither another user's session nor that user's cards |
| `Wizard.RouteIsolated` | src/handlers.py:273-300 | the same for any button press |
| `Handlers.CreditCardHandlers.constructor` | src/handlers.py:34-36 | the handlers and the form manager share one store |
| `Handlers.CreditCardHandlers.HandleAddCardCommand` | src/handlers.py:97-134 | the sessions become `Started`; nothing else changes |
| `Handlers.CreditCardHandlers.HandleTextMessage` | src/handlers.py:302-406 | has exactly the effect and outcome of `TextStep` |
| `Handlers.CreditCardHandlers.StoreAccepted` | src/handlers.py:316-406 | the writes and completions for an accepted text have exactly the effect and outcome of `AcceptedStep` |
| `Handlers.CreditCardHandlers.ShowFormStatus` | src/handlers.py:478-511 | `Stored` exactly when there is no form data, the form is empty, or all four shown fields are present; `Crashed` (the `KeyError` at src/handlers.py:505) otherwise |
| `Handlers.CreditCardHandlers.HandleFormFieldCallback` | src/handlers.py:408-431 | has exactly the effect and outcome of `FieldStep` |
| `Handlers.CreditCardHandlers.HandleFormDone` | src/handlers.py:433-471 | has exactly the effect and outcome of `DoneStep` |
| `Handlers.CreditCardHandlers.HandleFormCancel` | src/handlers.py:473-476 | has exactly the effect and outcome of `CancelStep` |
| `Handlers.CreditCardHandlers.SeedBillingForm` | src/handlers.py:579-595 | has exactly the effect and outcome of `SeedStep` |
| `Handlers.CreditCardHandlers.HandleSetBillingCallback` | src/handlers.py:579-595 | `SeedStep` into WAITING_BILLING_DATE |
| `Handlers.CreditCardHandlers.HandleUpdateAmountCallback` | src/handlers.py:597-613 | `SeedStep` into WAITING_BILL_AMOUNT |
| `Handlers.CreditCardHandlers.HandleSetGraceDaysCallback` | src/handlers.py:615-631 | `SeedStep` into WAITING_GRACE_DAYS |
| `Handlers.CreditCardHandlers.HandleBillingFormDone` | src/handlers.py:733-782 | `Complete` on the plan the form gives: billing info when a billing day is stored, otherwise the amount alone |
| `Handlers.CreditCardHandlers.HandleGraceDaysFormDone` | src/handlers.py:784-813 | `Complete` on the grace-days plan the form gives |
| `Handlers.CreditCardHandlers.HandleLookCallback` | src/handlers.py:513-533 | reads only: `NotFound` exactly when the user has no such card |
| `Handlers.CreditCardHandlers.HandleConfirmDelete` | src/handlers.py:535-555 | has exactly the effect and outcome of `ConfirmDeleteStep` |
| `Handlers.CreditCardHandlers.HandleMarkPaid` | src/handlers.py:557-577 | has exactly the effect and outcome of `MarkPaidStep` |
| `Handlers.CreditCardHandlers.HandleCallbackQuery` | src/handlers.py:264-300 | has exactly the effect and outcome of `CallbackStep` |
| `Handlers.CreditCardHandlers.HandleRoute` | src/handlers.py:273-300 | has exactly the effect and outcome of `RouteStep` |
| `Handlers.CreditCardHandlers.HandleCardRoute` | src/handlers.py:275-288 | the routes whose payload names a card have exactly the effect and outcome of `RouteStep` |

Two behaviours of the code worth stating:

- Month-end dates are not clamped. `mark_bill_paid` and `update_billing_info`
  call `datetime.replace`, which raises when the day does not exist in the
  target month (src/database.py:240-246, 287-290). The exception is caught
  and the update returns `false`, so the model returns `None` there.
- Completing the set-billing sub-flow resets the card's grace days to 21.
  `_handle_billing_form_done` calls `update_billing_info` without a grace
  argument, and its default is 21 (src/database.py:229, src/handlers.py:749-754).

## Left out

- Rendering: message texts, Markdown and inline keyboards. Each handler returns an `Outcome` instead. Of `_show_form_status` only whether it returns or raises `KeyError` is modelled.
- The display-only commands (`start`, `help`, `view_cards`, `view_card`, `delete_card`, `status`, `set_billing`, `update_bill_amount`, `set_due_date`) and the bill-list callbacks, which only render. The list callbacks are routed, and reach `Shown`.
- Process wiring and configuration: `src/bot.py`, `main.py`, `src/config.py`, and the Telegram API and its polling.
- SQLite mechanics: connections, commits, logging and schema migration. `updated_at` is left out, and so is `created_at`. The source orders a user's cards by `created_at DESC` (src/database.py:130, 163). That column is a `CURRENT_TIMESTAMP` with one-second resolution, so cards added in the same second tie and SQLite gives them no order. The model orders by strictly descending id (`Database.NewestFirst`, `Database.DatabaseManager.GetUserCards`, `Database.DatabaseManager.GetCardsByBankOrNumber`): this matches the source across seconds and breaks ties that the source leaves open.
- JSON encoding of `form_data`. The scratch map is a `map<string, string>`, and text that does not decode to an object is an absent form. The seeded `card_id` is kept as its decimal text, where the source stores a JSON integer; the model reads it back with `int()`.
- Floating point. A bill amount is valid when, with `$`, `,` and spaces removed, it is digits with at most one point and some non-zero digit; this stands in for `float(x) > 0`. Exponents, `inf`, `nan`, signs and surrounding whitespace, which `float()` also accepts, are not modelled. The amount is stored as the cleaned text.
- Python `int()` is modelled as ASCII digits with an optional sign. Surrounding whitespace, underscores and non-ASCII digits are not modelled.
- `LIKE` wildcards (`%`, `_`) inside a search term are matched literally, and case folding is ASCII only.
- The clock: "today" is a parameter. The time of day is dropped, which changes nothing because `replace(day=...)` keeps today's time on both sides of the comparison. The source reads two different clocks: `update_billing_info` and `mark_bill_paid` use the local `datetime.now()` (src/database.py:237, 284), while `get_due_bills` compares with SQLite's `DATE('now')`, the UTC date (src/database.py:331). The `today` of `GetDueBills` stands for that UTC date; the model does not relate it to the local date of the updates.
- Concurrency: events are handled one at a time, and `async` and the double-submit race on the session row are not modelled.
- Python exceptions that escape a handler (a non-integer id in a callback payload, a stored `billing_date` or `grace_days` that is not an integer, or the `KeyError` in `_show_form_status` at src/handlers.py:505 on a form missing a shown field) become the `Crashed` outcome with no change beyond the writes the handler made before the failing `int()`, where the source stops the handler (for the `KeyError`, after the field write).
- Forms.ValidateBillAmount: stated for plain decimals only. `float()` also accepts underscores between digits (`1_000`), non-ASCII digits, exponents, `inf`, `nan`, signs and surrounding whitespace, which the model rejects; and a tiny positive amount such as `0.` followed by 400 zeros and a `1` rounds to `0.0` in `float()` and is rejected there, while the model accepts it.
- Forms.ValidateCvv: Python's `str.isdigit` also accepts non-ASCII digits; the model accepts only `0`-`9`.

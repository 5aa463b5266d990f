# Bankist: a verified model of the ledger and session logic

Bankist is a browser demo bank written in JavaScript (`script.js`). This project
models its in-memory core in Dafny:

- the four seed accounts;
- `createUsernames`, which derives each login name from the owner's name;
- the balance, incomes, out and interest sums of `calcDisplayBalance` and
  `calcDisplaySummary`;
- `sortMovements`, which pairs movements with their dates and sorts them by
  amount;
- the `startLogoutTimer` countdown and its `tick`;
- the state changes of the login, transfer, loan, close and sort buttons.

Accounts are objects that the handlers change in place, so `Account` is a class
and the page's global state (`accounts`, `currentAccount`, `timer`, `sorted`) is
the class `Bankist.Bank`. Each click handler is a method whose contract states
its new state, with a `modifies` clause naming the fields it may change. Login
returns whether the pin matched; the transfer, loan, close and sort handlers
return an `Outcome`:

- `Applied`: the guarded block ran.
- `Declined`: the guard was false.
- `TypeError`: the handler dereferenced an undefined `currentAccount`, threw,
  and changed nothing.

The model follows the code as written, including behaviour that a reader
might not expect:

- A failed login still reassigns `currentAccount`. An unknown username makes
  it `undefined`.
- Transfer checks the balance cached by the last `updateUI`, not the sum of
  the movements.
- A loan callback credits whichever account `currentAccount` names when it
  fires.
- Close neither clears `currentAccount` nor stops the timer. If the current
  account was already removed, `findIndex` returns -1 and `splice(-1, 1)`
  removes the last account of the registry (`Bankist.CloseTwiceScenario`).

Modules, one per file:

- `Basics`: `Option` and `Outcome`.
- `Ledger`: sums over movements and money totals.
- `Usernames`: `createUsernames`' string pipeline.
- `MovementSort`: `sortMovements`.
- `LogoutTimer`: the countdown.
- `Registry`: the `Account` class, `find`, `findIndex`, `splice` and
  `createUsernames`.
- `Bankist`: the seed data and the handlers.

## Model

| member | source | states |
|---|---|---|
| Registry.Account.constructor | script.js:9-33 | an account literal: owner, movements, rate, pin, dates, currency and locale as given; no username or cached balance yet |
| Registry.Account.Push | script.js:387-393 | `push` appends exactly the amount and the date to the two arrays |
| Registry.Account.CalcDisplayBalance | script.js:214-216 | the cached balance becomes the sum of the movements |
| Registry.CreateUsernames | script.js:252-261 | every account's username becomes `Username(owner)`; movements, dates and cached balances are untouched |
| Registry.FindIndex | script.js:445-447 | `findIndex` by username: -1 when no account has the name, else the first index that has it |
| Registry.Find | script.js:320-322 | `find` by username: an account is found iff some account has the name, and it is the one at `FindIndex` |
| Registry.SpliceIndex | script.js:450 | `splice`'s start: a negative index counts from the end, and -1 is the last element; a start past either end is clipped to it |
| Registry.SpliceAt | script.js:450 | `SpliceOne` at a valid index removes exactly that element, keeps the others in order, and takes one off the multiset |
| Registry.SpliceMinusOne | script.js:450 | `SpliceOne` at -1 removes the last element, and leaves an empty array empty |
| Registry.UniqueAfterSplice | script.js:450 | removing an account keeps usernames unique and adds no account |
| Registry.SpliceFound | script.js:445-450 | splicing at the `findIndex` of a registered account's username removes exactly that account |
| Registry.OthersHaveOtherNames | script.js:445-447 | with unique usernames, no other account carries the i-th account's username |
| Registry.RemoveMember | script.js:445-450 | closing a registered account by its username removes that account and no other |
| Registry.RemoveStranger | script.js:445-450 | closing by a username nobody has finds -1 and removes the last account |
| Registry.CloseByUsername | script.js:445-450 | the close splice, in both cases: a member leaves alone and in order, otherwise the last account goes; nobody left has the closed username |
| Registry.LedgersAt | script.js:97 | the registry's k-th ledger is the k-th account's movements |
| Registry.TotalAfterPush | script.js:387-393 | pushing an amount onto one account, and no other, moves the total of the registry's balances by that amount when the account is registered and not at all otherwise |
| Ledger.Deposits | script.js:223-225 | `filter(mov => mov > 0)`: a value is kept iff it is a positive movement, every positive movement is kept as often as it occurs, and nothing else is kept |
| Ledger.DepositsConcat | script.js:223-225 | the filter keeps the order: the deposits of `a + b` are those of `a` followed by those of `b` |
| Ledger.Withdrawals | script.js:231-233 | `filter(mov => mov < 0)`: a value is kept iff it is a negative movement, every negative movement is kept as often as it occurs, and nothing else is kept |
| Ledger.WithdrawalsConcat | script.js:231-233 | the filter keeps the order: the withdrawals of `a + b` are those of `a` followed by those of `b` |
| Ledger.InterestTerms | script.js:239-245 | every interest term that the `filter(int => int >= 1)` keeps is at least 1 |
| Ledger.InterestTermsOfEarners | script.js:239-245 | every deposit whose interest `d * rate / 100` reaches 1 contributes that interest as a term |
| Ledger.InterestTermsFromDeposits | script.js:239-245 | every kept term is the interest of one of the deposits |
| Ledger.InterestTermsConcat | script.js:239-245 | `map` then `filter` keep the order: the terms of `a + b` are those of `a` followed by those of `b` |
| Ledger.Incomes | script.js:222-227 | incomes are never negative |
| Ledger.Out | script.js:231-235 | out is never positive |
| Ledger.Interest | script.js:239-247 | total interest is never negative |
| Ledger.SumConcat | script.js:216 | `Sum`, the `reduce` that `Balance` and the summaries use, distributes over concatenation |
| Ledger.SumAppend | script.js:387-389 | pushing a movement moves `Sum`, and so `Balance`, by exactly that amount |
| Ledger.BalanceIsIncomesPlusOut | script.js:214-235 | balance equals incomes plus out: every movement is counted once, on one side |
| Ledger.InterestTermsBounds | script.js:239-247 | with a non-negative rate, interest is at least the number of paying deposits and at most the rate applied to their sum |
| Ledger.InterestBounds | script.js:239-247 | the same bounds for an account: number of paying deposits ≤ interest ≤ rate × incomes / 100 |
| Ledger.InterestExample | script.js:239-247 | deposits 200 and 100 at 1.2% earn 3.6; incomes 300, out -50, balance 250 |
| Ledger.ThresholdIsPerTerm | script.js:244-245 | deposits of 50 and 50 at 1.5% earn nothing: the 1-unit threshold applies per deposit |
| Ledger.SomeAtLeast | script.js:414 | `some(mov => mov >= t)` holds iff some movement is at least t |
| Ledger.CoveredByDeposit | script.js:412-415 | a positive loan that passes the rule is backed by a deposit worth at least a tenth of it |
| Ledger.LoanRefusedExample | script.js:412-415 | a movement of 200 covers a loan of 2000 but not one of 2001 |
| Usernames.LowerChar | script.js:256 | `toLowerCase` on one character: spaces stay spaces, and A-Z map into a-z |
| Usernames.Lower | script.js:256 | `toLowerCase` as modelled: character by character with `LowerChar`, so the length is kept (JavaScript can change it outside ASCII) |
| Usernames.Split | script.js:257 | `split(" ")` always yields at least one piece |
| Usernames.SplitJoin | script.js:257 | the pieces of `split(" ")`, joined with single spaces, give back the string |
| Usernames.SplitNoSpace | script.js:257 | no piece of `split(" ")` holds a space |
| Usernames.InitialsAreWordStarts | script.js:255-259 | the first letters of the `split(" ")` words are the characters that follow a space, plus the first character |
| Usernames.UsernameIsLowerWordStarts | script.js:255-259 | `Username`, the derivation `createUsernames` assigns, is the independent word starts of the lower-cased owner |
| Usernames.UsernameShape | script.js:255-259 | a username has no space and is no longer than the owner's name |
| Usernames.UsernameOfWords | script.js:255-259 | the username of words joined by single spaces is the lower-cased first letter of each word |
| Usernames.UsernameAlenaFleming | script.js:252-263 | "Alena Fleming" gets the username "af" |
| Usernames.UsernameMaiseyCharlton | script.js:252-263 | "Maisey Charlton" gets the username "mc" |
| Usernames.UsernameBradleySmith | script.js:252-263 | "Bradley Smith" gets the username "bs" |
| Usernames.UsernameSarahLouiseNewton | script.js:252-263 | "Sarah Louise Newton", with a middle name, gets the three-letter username "sln" |
| Bankist.SeedUsernamesAssigned | script.js:262-263 | after `createUsernames`, the four seed accounts have distinct usernames "af", "mc", "bs", "sln" |
| Bankist.SeedAccounts | script.js:9-97 | the `accounts` array: four fresh accounts whose owners, pins, interest rates, movements, dates, currencies and locales are the seed values, account by account (`SeedData`), with no cached balance |
| Bankist.Bank.Seed | script.js:9-97 | the page as loaded: seed accounts with their usernames, nobody logged in, no timer, not sorted |
| MovementSort.UnzipZip | script.js:161-168 | splitting the zipped pairs into `el[0]` and `el[1]` gives back the movements and the dates |
| MovementSort.ZipUnzip | script.js:161-168 | zipping the amounts and dates of some pairs gives back the pairs |
| MovementSort.Insert | script.js:163 | inserting keeps every pair: length and multiset grow by the new pair |
| MovementSort.InsertSorted | script.js:163 | inserting into a list sorted by amount keeps it sorted |
| MovementSort.SortByAmount | script.js:163 | the sort yields a permutation of the pairs in non-decreasing amount |
| MovementSort.Combine | script.js:157-161 | the first `forEach` builds exactly the pairs `Zip` describes: the i-th movement with the i-th date |
| MovementSort.Separate | script.js:164-168 | the second `forEach` splits the pairs so that zipping its two outputs gives the pairs back |
| MovementSort.SortMovements | script.js:156-171 | the outputs are as long as the inputs, the amounts are non-decreasing, each amount keeps its own date, and the pairs come out exactly in the `SortByAmount` order of the input pairs |
| LogoutTimer.Start | script.js:278-307 | `startLogoutTimer` ticks once at once, so a fresh timer runs at 119 s and its first tick does not log out |
| LogoutTimer.MinutesSeconds | script.js:285-286 | the displayed minutes and seconds recompose the remaining time, with seconds below 60 |
| LogoutTimer.RunStopped | script.js:292-294 | `Run` of a cleared interval changes nothing and never logs out |
| LogoutTimer.RunRunning | script.js:283-300 | `Tick`, one call of `tick`, repeated n times (`Run`) from t seconds leaves t - n when n ≤ t; one more logs out once and stops the interval |
| LogoutTimer.LogoutExactlyOnce | script.js:280-300 | from 120 s the user is logged out on the 121st tick, exactly once |
| LogoutTimer.LogoutAfterStart | script.js:278-307 | after a login the user is logged out on the 120th interval tick, with 119 - n seconds left before it |
| Bankist.Bank.Login | script.js:315-365 | `currentAccount` becomes the `find` result in every case; the screen opens, the timer restarts and the balance is refreshed iff the pin matches; no ledger changes |
| Bankist.Bank.TransferVerdict | script.js:380-385 | the transfer applies iff the amount is positive, someone is logged in, the cached balance covers the amount, some account has the receiver's username and it is not the sender's own; it throws iff the amount is positive and the receiver exists but nobody is logged in |
| Bankist.Bank.LoanVerdict | script.js:409-415 | the loan applies iff the floored amount is positive, someone is logged in and some movement is at least a tenth of it, and then a deposit covers it; it throws iff the floored amount is positive and nobody is logged in |
| Bankist.Bank.CloseVerdict | script.js:440-443 | the close applies iff someone is logged in and the entered username and pin are theirs; it throws iff nobody is logged in |
| Bankist.Bank.Transfer | script.js:368-402 | the verdict follows the JS guard order; when applied, both accounts get the amount and the date, the sender's cached balance is refreshed and the timer restarts; registry money is conserved, or grows by the amount when the sender was removed; otherwise nothing changes |
| Bankist.Bank.MoveMoney | script.js:387-396 | the transfer's pushes and balance refresh, with the same money facts |
| Bankist.Bank.Post | script.js:387-393 | one push changes the registry's money by the amount exactly when the account is registered |
| Bankist.Bank.RequestLoan | script.js:405-433 | a floored, positive, covered amount schedules a callback; nothing else changes; an undefined `currentAccount` throws |
| Bankist.Bank.Credit | script.js:418-424 | the callback's push of the amount and date plus the balance refresh; the registry's money grows by the amount only if the account is registered |
| Bankist.Bank.CompleteLoan | script.js:416-429 | the callback credits the account current when it fires, refreshes its balance and restarts the timer; registry money grows by the amount only if that account is registered |
| Bankist.Bank.Close | script.js:436-458 | with matching username and pin: a registered current account is removed and no other, or the last account goes when it was removed already; the screen hides; `currentAccount` and the timer stay |
| Bankist.Bank.ToggleSort | script.js:461-470 | shows a sorted permutation of the current movements when `sorted` was false and the stored order when true, then flips the flag; stored movements are never reordered |
| Bankist.Bank.Tick | script.js:283-300 | one interval tick as `LogoutTimer.Tick`; the screen hides exactly on logout |
| Bankist.LoginScenario | script.js:315-365 | on the seed data "af"/1111 logs in and "af"/1112 does not |
| Bankist.UnknownUserScenario | script.js:315-402 | after a login with an unknown username nobody is logged in and a transfer throws |
| Bankist.CloseTwiceScenario | script.js:436-458 | closing as "af" twice removes "af" and then "sln", leaving "mc" and "bs" |

## Left out

- DOM rendering, `Intl` date and currency formatting, `formatMovementDate`, the welcome text and input clearing change no model state and are not modelled.
- Real time is not modelled. `setInterval` and `setTimeout` become explicit `Tick` and `CompleteLoan` calls, in an order the caller chooses. `new Date().toISOString()` becomes a `now` stamp parameter.
- Bankist.Bank.Transfer: both dates are one `now` stamp, though the source calls `new Date()` twice.
- JavaScript numbers are modelled as exact reals. IEEE rounding is not modelled, for example in `amount * 0.1` or in the sums.
- Input text coercion is not modelled. An entered pin or loan amount that is not a number is `None` (NaN). A transfer amount is taken as a number, and NaN fails `amount > 0` just as 0 does.
- Usernames.LowerChar: lowers ASCII A-Z only, not the rest of Unicode `toLowerCase`.
- Usernames.Lower: works one character at a time and keeps the length. JavaScript's `toLowerCase` can lengthen a string outside ASCII: `"İ".toLowerCase()` has length 2.
- Usernames.Initial: a Dafny `char` is a whole Unicode code point. JavaScript's `name[0]` is one UTF-16 code unit, so an owner whose word starts outside the Basic Multilingual Plane gets half a surrogate pair there and the whole character here.
- MovementSort.SortMovements: the stability of `Array.prototype.sort` (equal amounts keep their original order) is not stated as a lemma. The contract pins the output to the `SortByAmount` order, an insertion sort that keeps equal amounts in input order by construction.
- MovementSort.SortMovements: requires movements and dates of equal length. The registry keeps every account that way.
- The model follows the code, also where a bank would be expected to behave differently:
  - Close does not end the session.
  - A loan callback is not discarded when its account was removed or another user logged in.
  - A handler run with an undefined `currentAccount` throws rather than declining; in particular, the sort flag then does not flip.
  - Close removes the last account when the current one was already removed.

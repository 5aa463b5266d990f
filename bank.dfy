/** The global state of script.js and its event handlers: `currentAccount`,
    the logout `timer`, `sorted`, and the `accounts` array, changed by the
    login, transfer, loan, close and sort buttons and by the timer's ticks. */
module Bankist {
  import opened Basics
  import opened Ledger
  import opened Registry
  import opened MovementSort
  import LogoutTimer

  /** After `createUsernames`, the seed accounts are "af", "mc", "bs" and
      "sln". */
  lemma SeedUsernamesAssigned(accs: seq<Account>)
    requires |accs| == 4
    requires accs[0].owner == "Alena Fleming" && accs[1].owner == "Maisey Charlton"
    requires accs[2].owner == "Bradley Smith" && accs[3].owner == "Sarah Louise Newton"
    requires forall a :: a in accs ==> a.username == Usernames.Username(a.owner)
    ensures accs[0].username == "af" && accs[1].username == "mc"
    ensures accs[2].username == "bs" && accs[3].username == "sln"
    ensures UniqueUsernames(accs)
  {
    assert accs[0] in accs && accs[1] in accs && accs[2] in accs && accs[3] in accs;
    Usernames.UsernameAlenaFleming(accs[0].owner);
    Usernames.UsernameMaiseyCharlton(accs[1].owner);
    Usernames.UsernameBradleySmith(accs[2].owner);
    Usernames.UsernameSarahLouiseNewton(accs[3].owner);
    SeedUsernamesDistinct(accs);
  }

  /** The four seed usernames differ from each other. */
  lemma SeedUsernamesDistinct(accs: seq<Account>)
    requires |accs| == 4
    requires accs[0].username == "af" && accs[1].username == "mc"
    requires accs[2].username == "bs" && accs[3].username == "sln"
    ensures UniqueUsernames(accs)
  {
    assert "af"[1] != "mc"[1] && "af"[0] != "bs"[0] && "af"[0] != "sln"[0];
    assert "mc"[0] != "bs"[0] && "mc"[0] != "sln"[0] && |"bs"| != |"sln"|;
  }

  /** The `accounts` array of script.js, account by account: owner, pin,
      rate, movements, dates, currency and locale. */
  ghost predicate SeedData(accs: seq<Account>)
    reads Elements(accs)`movements, Elements(accs)`movementsDates
  {
    && |accs| == 4
    && accs[0].owner == "Alena Fleming" && accs[0].pin == 1111 && accs[0].interestRate == 1.2
    && accs[0].movements == [200.0, 455.23, -306.5, 25000.0, -642.21, -133.9, 79.97, 1300.0]
    && accs[0].movementsDates == ["2019-11-18T21:31:17.178Z", "2019-12-23T07:42:02.383Z", "2020-01-28T09:15:04.904Z",
        "2020-04-01T10:17:24.185Z", "2020-05-08T14:11:59.604Z", "2020-05-27T17:01:17.194Z",
        "2020-07-11T23:36:17.929Z", "2020-07-12T10:51:36.790Z"]
    && accs[0].currency == "EUR" && accs[0].locale == "pt-PT"
    && accs[1].owner == "Maisey Charlton" && accs[1].pin == 2222 && accs[1].interestRate == 1.5
    && accs[1].movements == [5000.0, 3400.0, -150.0, -790.0, -3210.0, -1000.0, 8500.0, -30.0]
    && accs[1].movementsDates == ["2019-11-01T13:15:33.035Z", "2019-11-30T09:48:16.867Z", "2019-12-25T06:04:23.907Z",
        "2020-01-25T14:18:46.235Z", "2020-02-05T16:33:06.386Z", "2022-02-16T14:43:26.374Z",
        "2022-02-19T18:49:59.371Z", "2022-02-22T12:01:20.894Z"]
    && accs[1].currency == "USD" && accs[1].locale == "en-US"
    && accs[2].owner == "Bradley Smith" && accs[2].pin == 3333 && accs[2].interestRate == 0.7
    && accs[2].movements == [200.0, -200.0, 340.0, -300.0, -20.0, 50.0, 400.0, -460.0]
    && accs[2].movementsDates == ["2019-11-01T13:15:33.035Z", "2019-11-30T09:48:16.867Z", "2019-12-25T06:04:23.907Z",
        "2020-01-25T14:18:46.235Z", "2020-02-05T16:33:06.386Z", "2022-02-16T14:43:26.374Z",
        "2022-02-19T18:49:59.371Z", "2022-12-22T12:01:20.894Z"]
    && accs[2].currency == "USD" && accs[2].locale == "en-US"
    && accs[3].owner == "Sarah Louise Newton" && accs[3].pin == 4444 && accs[3].interestRate == 1.0
    && accs[3].movements == [430.0, 1000.0, 700.0, 50.0, 90.0]
    && accs[3].movementsDates == ["2019-11-01T13:15:33.035Z", "2019-11-30T09:48:16.867Z", "2019-12-25T06:04:23.907Z",
        "2020-01-25T14:18:46.235Z", "2022-11-22T19:09:35.894Z"]
    && accs[3].currency == "USD" && accs[3].locale == "en-US"
  }

  /** The seed accounts once `createUsernames` has run. */
  ghost predicate SeedRegistry(accs: seq<Account>)
    reads Elements(accs)
  {
    && SeedData(accs)
    && accs[0].username == "af" && accs[1].username == "mc"
    && accs[2].username == "bs" && accs[3].username == "sln"
  }

  /** The `accounts` array of script.js, before `createUsernames`. */
  method SeedAccounts() returns (accs: seq<Account>)
    ensures fresh(Elements(accs))
    ensures SeedData(accs)
    ensures forall a :: a in accs ==> a.Aligned() && a.balance == None
  {
    var account1 := new Account("Alena Fleming",
      [200.0, 455.23, -306.5, 25000.0, -642.21, -133.9, 79.97, 1300.0], 1.2, 1111,
      ["2019-11-18T21:31:17.178Z", "2019-12-23T07:42:02.383Z", "2020-01-28T09:15:04.904Z",
       "2020-04-01T10:17:24.185Z", "2020-05-08T14:11:59.604Z", "2020-05-27T17:01:17.194Z",
       "2020-07-11T23:36:17.929Z", "2020-07-12T10:51:36.790Z"],
      "EUR", "pt-PT");
    var account2 := new Account("Maisey Charlton",
      [5000.0, 3400.0, -150.0, -790.0, -3210.0, -1000.0, 8500.0, -30.0], 1.5, 2222,
      ["2019-11-01T13:15:33.035Z", "2019-11-30T09:48:16.867Z", "2019-12-25T06:04:23.907Z",
       "2020-01-25T14:18:46.235Z", "2020-02-05T16:33:06.386Z", "2022-02-16T14:43:26.374Z",
       "2022-02-19T18:49:59.371Z", "2022-02-22T12:01:20.894Z"],
      "USD", "en-US");
    var account3 := new Account("Bradley Smith",
      [200.0, -200.0, 340.0, -300.0, -20.0, 50.0, 400.0, -460.0], 0.7, 3333,
      ["2019-11-01T13:15:33.035Z", "2019-11-30T09:48:16.867Z", "2019-12-25T06:04:23.907Z",
       "2020-01-25T14:18:46.235Z", "2020-02-05T16:33:06.386Z", "2022-02-16T14:43:26.374Z",
       "2022-02-19T18:49:59.371Z", "2022-12-22T12:01:20.894Z"],
      "USD", "en-US");
    var account4 := new Account("Sarah Louise Newton",
      [430.0, 1000.0, 700.0, 50.0, 90.0], 1.0, 4444,
      ["2019-11-01T13:15:33.035Z", "2019-11-30T09:48:16.867Z", "2019-12-25T06:04:23.907Z",
       "2020-01-25T14:18:46.235Z", "2022-11-22T19:09:35.894Z"],
      "USD", "en-US");
    accs := [account1, account2, account3, account4];
  }

  class Bank {
    /** The `accounts` array. */
    var accounts: seq<Account>
    /** `currentAccount`: reassigned by every login attempt, never cleared; it
        may point at an account that has since been removed. */
    var current: Option<Account>
    /** The countdown of the live logout interval (`timer`). */
    var clock: LogoutTimer.Countdown
    /** Whether the account screen is shown (`containerApp.style.opacity`). */
    var appVisible: bool
    /** The `sorted` flag of the sort button. */
    var sorted: bool
    /** The floored amounts of loan callbacks scheduled with `setTimeout` and
        not yet run, oldest first. */
    var pendingLoans: seq<int>

    /** Every account object the handlers can reach. */
    ghost function Objects(): set<Account>
      reads this
    {
      Elements(accounts) + (if current.Some? then {current.value} else {})
    }

    ghost predicate Valid()
      reads this, Objects()`movements, Objects()`movementsDates, Objects()`username
    {
      && AllAligned(accounts)
      && (current.Some? ==> current.value.Aligned())
      && UniqueUsernames(accounts)
      && (clock.running ==> clock.time >= 0)
      && (current.Some? && current.value !in accounts ==>
            forall a :: a in accounts ==> a.username != current.value.username)
      && (forall l :: l in pendingLoans ==> l > 0)
    }

    /** The state when the page has loaded: the seed accounts with their
        usernames, nobody logged in, no timer running. */
    constructor Seed()
      ensures Valid() && fresh(Objects())
      ensures SeedRegistry(accounts)
      ensures forall a :: a in accounts ==> a.balance == None
      ensures current == None && clock == LogoutTimer.NoTimer
      ensures !appVisible && !sorted && pendingLoans == []
    {
      var seed := SeedAccounts();
      CreateUsernames(seed);
      SeedUsernamesAssigned(seed);
      accounts := seed;
      current := None;
      clock := LogoutTimer.NoTimer;
      appVisible := false;
      sorted := false;
      pendingLoans := [];
    }

    /** The login button: `currentAccount` becomes the account with the
        entered username (or `undefined`) whether or not the pin matches; only
        a matching pin shows the account, restarts the logout timer at 120 and
        refreshes the cached balance. `pin` is `None` for text that is not a
        number. */
    method Login(name: string, pin: Option<int>) returns (ok: bool)
      requires Valid()
      modifies this`current, this`appVisible, this`clock, Elements(accounts)`balance
      ensures Valid()
      ensures current == old(Find(accounts, name))
      ensures ok <==> current.Some? && pin == Some(current.value.pin)
      ensures accounts == old(accounts) && sorted == old(sorted) && pendingLoans == old(pendingLoans)
      ensures ok ==> (appVisible && clock == LogoutTimer.Start()
                      && current.value.balance == Some(Balance(current.value.movements)))
      ensures !ok ==> appVisible == old(appVisible) && clock == old(clock)
      ensures forall a :: a in old(Objects()) ==>
        a.movements == old(a.movements) && a.movementsDates == old(a.movementsDates)
        && a.username == old(a.username)
        && (a.balance == old(a.balance) || (ok && Some(a) == current))
    {
      current := Find(accounts, name);
      ok := current.Some? && pin == Some(current.value.pin);
      if ok {
        appVisible := true;
        clock := LogoutTimer.Start();
        current.value.CalcDisplayBalance();
      }
    }

    /** The guard of the transfer button, in the order JavaScript evaluates
        it: a positive amount, an existing receiver, then (dereferencing
        `currentAccount`) a cached balance of at least the amount (an
        `undefined` balance compares false), and a receiver other than the
        sender. */
    function TransferVerdict(to: string, amount: real): (r: Outcome)
      reads this, Objects()
      ensures r == Applied <==>
        && amount > 0.0 && current.Some?
        && current.value.balance.Some? && amount <= current.value.balance.value
        && (exists k :: 0 <= k < |accounts| && accounts[k].username == to)
        && to != current.value.username
      ensures r == TypeError <==>
        amount > 0.0 && current.None? && exists k :: 0 <= k < |accounts| && accounts[k].username == to
    {
      var receiver := Find(accounts, to);
      if !(amount > 0.0 && receiver.Some?) then Declined
      else if current.None? then TypeError
      else if !(current.value.balance.Some? && current.value.balance.value >= amount) then Declined
      else if receiver.value.username == current.value.username then Declined
      else Applied
    }

    /** The transfer button. When every guard holds, the sender gets `-amount`
        and the receiver `+amount`, each with the date `now`; the sender's
        cached balance is refreshed (the receiver's is not) and the logout
        timer restarts. Otherwise nothing changes. */
    method Transfer(to: string, amount: real, now: Stamp) returns (outcome: Outcome)
      requires Valid()
      modifies this`clock, Objects()`movements, Objects()`movementsDates, Objects()`balance
      ensures Valid()
      ensures outcome == old(TransferVerdict(to, amount))
      ensures accounts == old(accounts) && current == old(current)
      ensures appVisible == old(appVisible) && sorted == old(sorted) && pendingLoans == old(pendingLoans)
      ensures outcome != Applied ==> clock == old(clock) && forall a :: a in old(Objects()) ==> unchanged(a)
      ensures outcome == Applied ==>
        var sender := current.value;
        var receiver := old(Find(accounts, to)).value;
        && sender != receiver
        && sender.movements == old(sender.movements) + [-amount]
        && sender.movementsDates == old(sender.movementsDates) + [now]
        && receiver.movements == old(receiver.movements) + [amount]
        && receiver.movementsDates == old(receiver.movementsDates) + [now]
        && sender.balance == Some(Balance(sender.movements))
        && receiver.balance == old(receiver.balance)
        && clock == LogoutTimer.Start()
        && (forall a :: a in old(Objects()) && a != sender && a != receiver ==> unchanged(a))
      ensures outcome == Applied && current.value in old(accounts) ==>
        Holdings(accounts) == old(Holdings(accounts))
      ensures outcome == Applied && current.value !in old(accounts) ==>
        Holdings(accounts) == old(Holdings(accounts)) + amount
    {
      outcome := TransferVerdict(to, amount);
      if outcome == Applied {
        var receiver := Find(accounts, to).value;
        MoveMoney(current.value, receiver, amount, now);
        clock := LogoutTimer.Start();
      }
    }

    /** The body of a transfer that passed its guard: debit the sender, credit
        the receiver, refresh the sender's cached balance. Money is conserved
        within the registry when the sender belongs to it; a sender that has
        been removed adds the amount to the registry. */
    method MoveMoney(sender: Account, receiver: Account, amount: real, now: Stamp)
      requires Valid()
      requires sender in Objects() && receiver in accounts && sender != receiver
      modifies sender`movements, sender`movementsDates, sender`balance
      modifies receiver`movements, receiver`movementsDates
      ensures Valid()
      ensures sender.movements == old(sender.movements) + [-amount]
      ensures sender.movementsDates == old(sender.movementsDates) + [now]
      ensures receiver.movements == old(receiver.movements) + [amount]
      ensures receiver.movementsDates == old(receiver.movementsDates) + [now]
      ensures sender.balance == Some(Balance(sender.movements))
      ensures receiver.balance == old(receiver.balance)
      ensures sender in accounts ==> Holdings(accounts) == old(Holdings(accounts))
      ensures sender !in accounts ==> Holdings(accounts) == old(Holdings(accounts)) + amount
    {
      Post(sender, -amount, now);
      Post(receiver, amount, now);
      sender.CalcDisplayBalance();
    }

    /** One `push` of an amount and a date onto an account the handlers can
        reach: the registry's money moves by the amount exactly when the
        account belongs to the registry. */
    method Post(acct: Account, amount: real, now: Stamp)
      requires Valid() && acct in Objects()
      modifies acct`movements, acct`movementsDates
      ensures Valid()
      ensures acct.movements == old(acct.movements) + [amount]
      ensures acct.movementsDates == old(acct.movementsDates) + [now]
      ensures Holdings(accounts) == old(Holdings(accounts)) + if acct in accounts then amount else 0.0
    {
      ghost var before := Ledgers(accounts);
      LedgersAt(accounts);
      acct.Push(amount, now);
      assert AllAligned(accounts) by {
        forall k | 0 <= k < |accounts| ensures accounts[k].Aligned() {
          if accounts[k] != acct {
            assert old(accounts[k].Aligned());
          }
        }
      }
      UniqueIsDistinct(accounts);
      LedgersAt(accounts);
      TotalAfterPush(accounts, before, Ledgers(accounts), acct, amount);
    }

    /** The guard of the loan button: `Math.floor` of the entered amount must
        be positive (text that is not a number gives `NaN`, written `None`),
        then, dereferencing `currentAccount`, one of its movements must be at
        least a tenth of that amount. */
    function LoanVerdict(requested: Option<real>): (r: Outcome)
      reads this, Objects()
      ensures r == Applied <==>
        && requested.Some? && requested.value.Floor > 0 && current.Some?
        && exists i :: 0 <= i < |current.value.movements|
             && current.value.movements[i] * 10.0 >= requested.value.Floor as real
      ensures r == TypeError <==> requested.Some? && requested.value.Floor > 0 && current.None?
      ensures r == Applied ==>
        exists d :: d in Deposits(current.value.movements) && d * 10.0 >= requested.value.Floor as real
    {
      if requested.None? || requested.value.Floor <= 0 then Declined
      else if current.None? then TypeError
      else if LoanCovered(current.value.movements, requested.value.Floor) then
        CoveredByDeposit(current.value.movements, requested.value.Floor);
        Applied
      else Declined
    }

    /** The loan button: a granted loan is not booked yet but scheduled with
        `setTimeout`; nothing else changes. */
    method RequestLoan(requested: Option<real>) returns (outcome: Outcome)
      requires Valid()
      modifies this`pendingLoans
      ensures Valid()
      ensures outcome == LoanVerdict(requested)
      ensures outcome == Applied ==> pendingLoans == old(pendingLoans) + [requested.value.Floor]
      ensures outcome != Applied ==> pendingLoans == old(pendingLoans)
    {
      outcome := LoanVerdict(requested);
      if outcome == Applied {
        pendingLoans := pendingLoans + [requested.value.Floor];
      }
    }

    /** The `setTimeout` callback of the oldest granted loan. It pushes the
        amount onto whichever account `currentAccount` names when it fires
        (possibly another one than at the request, or a removed one),
        refreshes that account's cached balance and restarts the logout
        timer; with `currentAccount` undefined it throws and only the
        callback is used up. */
    method CompleteLoan(now: Stamp) returns (outcome: Outcome)
      requires Valid() && pendingLoans != []
      modifies this`pendingLoans, this`clock, Objects()`movements, Objects()`movementsDates, Objects()`balance
      ensures Valid()
      ensures pendingLoans == old(pendingLoans[1..])
      ensures accounts == old(accounts) && current == old(current)
      ensures appVisible == old(appVisible) && sorted == old(sorted)
      ensures outcome == (if current.None? then TypeError else Applied)
      ensures outcome == TypeError ==> clock == old(clock) && forall a :: a in old(Objects()) ==> unchanged(a)
      ensures outcome == Applied ==>
        var borrower := current.value;
        && borrower.movements == old(borrower.movements) + [old(pendingLoans[0]) as real]
        && borrower.movementsDates == old(borrower.movementsDates) + [now]
        && borrower.balance == Some(Balance(borrower.movements))
        && clock == LogoutTimer.Start()
        && (forall a :: a in old(Objects()) && a != borrower ==> unchanged(a))
      ensures outcome == Applied ==>
        Holdings(accounts)
          == old(Holdings(accounts)) + if current.value in accounts then old(pendingLoans[0]) as real else 0.0
    {
      var amount := pendingLoans[0];
      assert amount in pendingLoans;
      assert forall l :: l in pendingLoans[1..] ==> l in pendingLoans;
      pendingLoans := pendingLoans[1..];
      assert Valid();
      if current.None? {
        outcome := TypeError;
      } else {
        Credit(current.value, amount as real, now);
        clock := LogoutTimer.Start();
        outcome := Applied;
      }
    }

    /** The body of a loan callback: push the amount and the date onto the
        account, then refresh its cached balance. */
    method Credit(acct: Account, amount: real, now: Stamp)
      requires Valid() && acct in Objects()
      modifies acct`movements, acct`movementsDates, acct`balance
      ensures Valid()
      ensures acct.movements == old(acct.movements) + [amount]
      ensures acct.movementsDates == old(acct.movementsDates) + [now]
      ensures acct.balance == Some(Balance(acct.movements))
      ensures Holdings(accounts) == old(Holdings(accounts)) + if acct in accounts then amount else 0.0
    {
      Post(acct, amount, now);
      acct.CalcDisplayBalance();
    }

    /** The guard of the close button: the entered username (read from
        `currentAccount` first, so an undefined one throws) and pin must be
        those of the current account. */
    function CloseVerdict(name: string, pin: Option<int>): (r: Outcome)
      reads this, Objects()
      ensures r == Applied <==> current.Some? && name == current.value.username && pin == Some(current.value.pin)
      ensures r == TypeError <==> current.None?
    {
      if current.None? then TypeError
      else if name == current.value.username && pin == Some(current.value.pin) then Applied
      else Declined
    }

    /** The close button: `accounts.splice(findIndex(...), 1)` and the account
        screen is hidden. `currentAccount` and the logout timer are left as
        they are. A current account still in the registry is removed and no
        other; one that was removed already is not found (index -1), and then
        the last account of the registry goes instead. */
    method Close(name: string, pin: Option<int>) returns (outcome: Outcome)
      requires Valid()
      modifies this`accounts, this`appVisible
      ensures Valid()
      ensures outcome == old(CloseVerdict(name, pin))
      ensures outcome != Applied ==> accounts == old(accounts) && appVisible == old(appVisible)
      ensures outcome == Applied ==> !appVisible
      ensures outcome == Applied && current.value in old(accounts) ==>
        && |accounts| == |old(accounts)| - 1
        && current.value !in accounts
        && multiset(accounts) + multiset{current.value} == multiset(old(accounts))
      ensures outcome == Applied && current.value in old(accounts) ==>
        exists i :: 0 <= i < |old(accounts)| && old(accounts)[i] == current.value
                 && accounts == old(accounts)[..i] + old(accounts)[i + 1..]
      ensures outcome == Applied && current.value !in old(accounts) ==>
        accounts == if old(accounts) == [] then [] else old(accounts)[..|old(accounts)| - 1]
    {
      outcome := CloseVerdict(name, pin);
      if outcome == Applied {
        ghost var before := accounts;
        CloseByUsername(accounts, current.value);
        accounts := SpliceOne(accounts, FindIndex(accounts, current.value.username));
        AlignedSubset(before, accounts);
        appVisible := false;
      }
    }

    /** The sort button: the list is drawn with `displayMovements(currentAccount,
        !sorted)`, sorted by amount when `sorted` was false and in stored
        order when it was true, then `sorted` flips. With `currentAccount`
        undefined the call throws before the flip. The stored movements are
        never reordered. */
    method ToggleSort() returns (outcome: Outcome, movs: seq<real>, dates: seq<Stamp>)
      requires Valid()
      modifies this`sorted
      ensures outcome == (if current.None? then TypeError else Applied)
      ensures outcome == TypeError ==> sorted == old(sorted) && movs == [] && dates == []
      ensures outcome == Applied ==> sorted == !old(sorted)
      ensures outcome == Applied && old(sorted) ==>
        movs == current.value.movements && dates == current.value.movementsDates
      ensures outcome == Applied && !old(sorted) ==>
        && |movs| == |current.value.movements| && |dates| == |movs|
        && (forall i, j :: 0 <= i < j < |movs| ==> movs[i] <= movs[j])
        && multiset(Zip(movs, dates)) == multiset(Zip(current.value.movements, current.value.movementsDates))
    {
      if current.None? {
        outcome, movs, dates := TypeError, [], [];
      } else {
        var acct := current.value;
        if sorted {
          movs, dates := acct.movements, acct.movementsDates;
        } else {
          movs, dates := SortMovements(acct.movements, acct.movementsDates);
        }
        sorted := !sorted;
        outcome := Applied;
      }
    }

    /** One firing of the logout interval's `tick`: counts down, and at 0
        stops the interval and hides the account screen. `currentAccount` is
        kept, so the handlers still act on it after a logout. */
    method Tick() returns (loggedOut: bool)
      requires Valid()
      modifies this`clock, this`appVisible
      ensures Valid()
      ensures (clock, loggedOut) == LogoutTimer.Tick(old(clock))
      ensures appVisible == (old(appVisible) && !loggedOut)
    {
      var step := LogoutTimer.Tick(clock);
      clock, loggedOut := step.0, step.1;
      if loggedOut {
        appVisible := false;
      }
    }
  }

  /** On the seed data "af" with pin 1111 is let in, and the same username
      with pin 1112 is not. */
  method LoginScenario() returns (granted: bool, wrongPin: bool)
    ensures granted && !wrongPin
  {
    var bank := new Bank.Seed();
    granted := bank.Login("af", Some(1111));
    wrongPin := bank.Login("af", Some(1112));
  }

  /** A login attempt with an unknown username leaves `currentAccount`
      undefined, so a transfer then throws. */
  method UnknownUserScenario() returns (loggedIn: bool, transfer: Outcome)
    ensures !loggedIn && transfer == TypeError
  {
    var bank := new Bank.Seed();
    loggedIn := bank.Login("zz", Some(1111));
    transfer := bank.Transfer("mc", 100.0, "2020-08-01T10:00:00.000Z");
  }

  /** Closing "af" twice on the seed data: the first close removes "af", the
      second, still made as "af", finds no such username and removes the
      last account, "sln". */
  method CloseTwiceScenario() returns (first: Outcome, second: Outcome, left: seq<string>)
    ensures first == Applied && second == Applied && left == ["mc", "bs"]
  {
    var bank := new Bank.Seed();
    var _ := bank.Login("af", Some(1111));
    first := bank.Close("af", Some(1111));
    second := bank.Close("af", Some(1111));
    left := [bank.accounts[0].username, bank.accounts[1].username];
  }
}

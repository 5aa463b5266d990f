/** The accounts of script.js and the registry operations the handlers use:
    `Array.prototype.find`/`findIndex` by username, `splice(index, 1)`, and
    `createUsernames`, which fills in every account's `username`. */
module Registry {
  import opened Basics
  import opened Ledger
  import opened Usernames

  /** An account object. The handlers push onto `movements` and
      `movementsDates` in place, `createUsernames` assigns `username`, and
      `calcDisplayBalance` caches the sum of the movements in `balance`. */
  class Account {
    const owner: string
    /** "" until `createUsernames` runs (the source's `undefined`). */
    var username: string
    var movements: seq<real>
    /** A percentage applied to qualifying deposits. */
    const interestRate: real
    const pin: int
    var movementsDates: seq<Stamp>
    /** Tags for the formatting code, which is not part of this model. */
    const currency: string
    const locale: string
    /** `None` until `calcDisplayBalance` first runs on this account (the
        source's `undefined`); afterwards the balance at that moment. */
    var balance: Option<real>

    constructor (owner: string, movements: seq<real>, interestRate: real, pin: int,
                 movementsDates: seq<Stamp>, currency: string, locale: string)
      ensures this.owner == owner && this.movements == movements
      ensures this.interestRate == interestRate && this.pin == pin
      ensures this.movementsDates == movementsDates
      ensures this.currency == currency && this.locale == locale
      ensures username == "" && balance == None
    {
      this.owner := owner;
      this.username := "";
      this.movements := movements;
      this.interestRate := interestRate;
      this.pin := pin;
      this.movementsDates := movementsDates;
      this.currency := currency;
      this.locale := locale;
      this.balance := None;
    }

    /** Every movement has exactly one date, at the same index. */
    ghost predicate Aligned()
      reads this`movements, this`movementsDates
    {
      |movements| == |movementsDates|
    }

    /** `movements.push(amount)` and `movementsDates.push(date)`. */
    method Push(amount: real, date: Stamp)
      modifies this`movements, this`movementsDates
      ensures movements == old(movements) + [amount]
      ensures movementsDates == old(movementsDates) + [date]
    {
      movements := movements + [amount];
      movementsDates := movementsDates + [date];
    }

    /** `calcDisplayBalance(acc)`: caches the sum of the movements. */
    method CalcDisplayBalance()
      modifies this`balance
      ensures balance == Some(Balance(movements))
    {
      balance := Some(Balance(movements));
    }
  }

  /** The objects of a sequence of accounts, for frames. */
  ghost function Elements(accts: seq<Account>): set<Account>
  {
    set a | a in accts
  }

  /** Every account of the registry has one date per movement. */
  ghost predicate AllAligned(accts: seq<Account>)
    reads accts`movements, accts`movementsDates
  {
    forall k :: 0 <= k < |accts| ==> accts[k].Aligned()
  }

  /** Keeping some of the accounts keeps them aligned. */
  lemma AlignedSubset(before: seq<Account>, after: seq<Account>)
    requires AllAligned(before) && Elements(after) <= Elements(before)
    ensures AllAligned(after)
  {
    forall k | 0 <= k < |after| ensures after[k].Aligned() {
      assert after[k] in Elements(before);
      var j :| 0 <= j < |before| && before[j] == after[k];
    }
  }

  /** No two accounts of the registry share a username. */
  ghost predicate UniqueUsernames(accts: seq<Account>)
    reads accts`username
  {
    forall i, j :: 0 <= i < |accts| && 0 <= j < |accts| && i != j ==>
      accts[i].username != accts[j].username
  }

  /** `accts.findIndex(acc => acc.username === name)`: the first index with
      that username, or -1 when there is none. */
  function FindIndex(accts: seq<Account>, name: string): (r: int)
    reads Elements(accts)
    ensures -1 <= r < |accts|
    ensures 0 <= r ==> accts[r].username == name
    ensures forall k :: 0 <= k < |accts| && (r == -1 || k < r) ==> accts[k].username != name
  {
    if accts == [] then -1
    else if accts[0].username == name then 0
    else
      var k := FindIndex(accts[1..], name);
      if k == -1 then -1 else k + 1
  }

  /** `accts.find(acc => acc.username === name)`: the first account with that
      username, or `undefined`. */
  function Find(accts: seq<Account>, name: string): (r: Option<Account>)
    reads Elements(accts)
    ensures r.Some? <==> exists k :: 0 <= k < |accts| && accts[k].username == name
    ensures r.Some? ==> r.value == accts[FindIndex(accts, name)]
  {
    var k := FindIndex(accts, name);
    if k == -1 then None else Some(accts[k])
  }

  /** In a registry with unique usernames, finding an account's username
      finds that very account. */
  lemma FindMember(accts: seq<Account>, i: nat)
    requires i < |accts| && UniqueUsernames(accts)
    ensures FindIndex(accts, accts[i].username) == i
    ensures Find(accts, accts[i].username) == Some(accts[i])
  {
  }

  /** The position `splice(start, 1)` acts on: a negative start counts from
      the end and is clipped at 0, a start past the end is clipped to the
      length. */
  function SpliceIndex(len: nat, start: int): (k: nat)
    ensures k <= len
    ensures 0 <= start <= len ==> k == start
    ensures 0 - len <= start < 0 ==> k == len + start
    ensures start > len ==> k == len
    ensures start < 0 - len ==> k == 0
  {
    if start < 0 then (if len + start < 0 then 0 else len + start)
    else if start > len then len
    else start
  }

  /** `s.splice(start, 1)` on the array: removes the element at
      `SpliceIndex(|s|, start)` if there is one. */
  function SpliceOne<T>(s: seq<T>, start: int): seq<T>
  {
    var k := SpliceIndex(|s|, start);
    if k < |s| then s[..k] + s[k + 1..] else s
  }

  /** Splicing at a valid index removes exactly that element: one element
      fewer, the others in their old order. */
  lemma SpliceAt<T>(s: seq<T>, i: nat)
    requires i < |s|
    ensures |SpliceOne(s, i)| == |s| - 1
    ensures forall k :: 0 <= k < |s| - 1 ==>
      SpliceOne(s, i)[k] == if k < i then s[k] else s[k + 1]
    ensures multiset(SpliceOne(s, i)) + multiset{s[i]} == multiset(s)
  {
    assert s == s[..i] + [s[i]] + s[i + 1..];
  }

  /** `splice(-1, 1)` removes the last element (and nothing of an empty
      array). */
  lemma SpliceMinusOne<T>(s: seq<T>)
    ensures SpliceOne(s, -1) == if s == [] then [] else s[..|s| - 1]
  {
  }

  /** Removing elements keeps usernames unique. */
  lemma UniqueAfterSplice(accts: seq<Account>, start: int)
    requires UniqueUsernames(accts)
    ensures UniqueUsernames(SpliceOne(accts, start))
    ensures Elements(SpliceOne(accts, start)) <= Elements(accts)
  {
    var k := SpliceIndex(|accts|, start);
    if k < |accts| {
      var r := accts[..k] + accts[k + 1..];
      assert SpliceOne(accts, start) == r;
      assert forall m :: 0 <= m < |r| ==> r[m] == accts[if m < k then m else m + 1];
      forall i, j | 0 <= i < |r| && 0 <= j < |r| && i != j
        ensures r[i].username != r[j].username
      {
        var i' := if i < k then i else i + 1;
        var j' := if j < k then j else j + 1;
        assert accts[i'].username != accts[j'].username;
      }
      forall a | a in r ensures a in accts {
        var m :| 0 <= m < |r| && r[m] == a;
        assert accts[if m < k then m else m + 1] == a;
      }
    }
  }

  /** Closing an account of the registry by its username removes that
      account and no other, keeping the order of the rest; no remaining
      account has its username. */
  lemma RemoveMember(accts: seq<Account>, i: nat)
    requires i < |accts| && UniqueUsernames(accts)
    ensures SpliceOne(accts, FindIndex(accts, accts[i].username)) == accts[..i] + accts[i + 1..]
    ensures forall a :: a in accts[..i] + accts[i + 1..] ==> a.username != accts[i].username
  {
    SpliceFound(accts, i);
    OthersHaveOtherNames(accts, i);
  }

  /** `splice(findIndex(...), 1)` with the username of the i-th account
      removes the i-th account. */
  lemma SpliceFound(accts: seq<Account>, i: nat)
    requires i < |accts| && UniqueUsernames(accts)
    ensures SpliceOne(accts, FindIndex(accts, accts[i].username)) == accts[..i] + accts[i + 1..]
  {
    FindMember(accts, i);
  }

  /** With unique usernames, nobody but the i-th account has its username. */
  lemma OthersHaveOtherNames(accts: seq<Account>, i: nat)
    requires i < |accts| && UniqueUsernames(accts)
    ensures forall a :: a in accts[..i] + accts[i + 1..] ==> a.username != accts[i].username
  {
    forall a | a in accts[..i] + accts[i + 1..] ensures a.username != accts[i].username {
      var j: nat;
      if a in accts[..i] {
        var m :| 0 <= m < i && accts[..i][m] == a;
        j := m;
      } else {
        var m :| 0 <= m < |accts| - i - 1 && accts[i + 1..][m] == a;
        j := i + 1 + m;
      }
      assert j < |accts| && j != i && accts[j] == a;
      assert accts[j].username != accts[i].username;
    }
  }

  /** Closing by a username nobody in the registry has: `findIndex` gives -1
      and `splice(-1, 1)` removes the last account. */
  lemma RemoveStranger(accts: seq<Account>, name: string)
    requires forall a :: a in accts ==> a.username != name
    ensures FindIndex(accts, name) == -1
    ensures SpliceOne(accts, FindIndex(accts, name)) == if accts == [] then [] else accts[..|accts| - 1]
  {
    SpliceMinusOne(accts);
  }

  /** What the close button does to the registry, for a current account
      that is either in it or shares its username with nobody in it: usernames
      stay unique, no account is added, and nobody left has the closed
      username. A member is removed and no other account; otherwise the last
      account goes. */
  lemma CloseByUsername(accts: seq<Account>, cur: Account)
    requires UniqueUsernames(accts)
    requires cur !in accts ==> forall a :: a in accts ==> a.username != cur.username
    ensures var r := SpliceOne(accts, FindIndex(accts, cur.username));
      && UniqueUsernames(r)
      && Elements(r) <= Elements(accts)
      && (forall a :: a in r ==> a.username != cur.username)
      && (cur in accts ==>
            && |r| == |accts| - 1
            && cur !in r
            && multiset(r) + multiset{cur} == multiset(accts)
            && exists i :: 0 <= i < |accts| && accts[i] == cur && r == accts[..i] + accts[i + 1..])
      && (cur !in accts ==> r == if accts == [] then [] else accts[..|accts| - 1])
  {
    var index := FindIndex(accts, cur.username);
    UniqueAfterSplice(accts, index);
    if cur in accts {
      var i :| 0 <= i < |accts| && accts[i] == cur;
      RemoveMember(accts, i);
      SpliceAt(accts, i);
    } else {
      RemoveStranger(accts, cur.username);
    }
  }

  /** The movements of each account, in registry order. */
  function Ledgers(accts: seq<Account>): (r: seq<seq<real>>)
    reads accts`movements
    ensures |r| == |accts|
  {
    if accts == [] then [] else [accts[0].movements] + Ledgers(accts[1..])
  }

  /** The k-th ledger is the k-th account's movements. */
  lemma {:induction false} LedgersAt(accts: seq<Account>)
    ensures forall k :: 0 <= k < |accts| ==> Ledgers(accts)[k] == accts[k].movements
  {
    if accts != [] {
      LedgersAt(accts[1..]);
      forall k | 1 <= k < |accts| ensures Ledgers(accts)[k] == accts[k].movements {
        assert Ledgers(accts)[k] == Ledgers(accts[1..])[k - 1];
      }
    }
  }

  /** The money held by the registry: the sum of its accounts' balances. */
  function Holdings(accts: seq<Account>): real
    reads accts`movements
  {
    Total(Ledgers(accts))
  }

  /** No account object appears twice. */
  ghost predicate Distinct(accts: seq<Account>)
  {
    forall i, j :: 0 <= i < j < |accts| ==> accts[i] != accts[j]
  }

  /** Accounts with different usernames are different objects. */
  lemma UniqueIsDistinct(accts: seq<Account>)
    requires UniqueUsernames(accts)
    ensures Distinct(accts)
  {
    forall i, j | 0 <= i < j < |accts| ensures accts[i] != accts[j] {
      assert accts[i].username != accts[j].username;
    }
  }

  lemma DistinctTail(accts: seq<Account>)
    requires accts != [] && Distinct(accts)
    ensures Distinct(accts[1..]) && accts[0] !in accts[1..]
  {
    forall i, j | 0 <= i < j < |accts| - 1 ensures accts[1..][i] != accts[1..][j] {
      assert accts[1..][i] == accts[i + 1] && accts[1..][j] == accts[j + 1];
    }
  }

  /** Appending `amount` to the ledger of `acct`, and to no other, moves the
      total by the amount when `acct` is one of the accounts, and not at all
      otherwise. */
  lemma {:induction false} TotalAfterPush(accts: seq<Account>, before: seq<seq<real>>,
                                          after: seq<seq<real>>, acct: Account, amount: real)
    requires Distinct(accts) && |before| == |accts| && |after| == |accts|
    requires forall k :: 0 <= k < |accts| ==>
      after[k] == if accts[k] == acct then before[k] + [amount] else before[k]
    ensures Total(after) == Total(before) + if acct in accts then amount else 0.0
  {
    if accts != [] {
      DistinctTail(accts);
      TotalAfterPush(accts[1..], before[1..], after[1..], acct, amount);
      if accts[0] == acct {
        SumAppend(before[0], amount);
      } else {
        assert acct in accts <==> acct in accts[1..];
      }
    }
  }

  /** `createUsernames(accs)`: every account's username becomes the one
      derived from its owner; nothing else changes. */
  method CreateUsernames(accs: seq<Account>)
    modifies Elements(accs)`username
    ensures forall a :: a in accs ==> a.username == Username(a.owner)
    ensures forall a :: a in accs ==>
      a.movements == old(a.movements) && a.movementsDates == old(a.movementsDates)
      && a.balance == old(a.balance)
  {
    var i := 0;
    while i < |accs|
      invariant 0 <= i <= |accs|
      invariant forall k :: 0 <= k < i ==> accs[k].username == Username(accs[k].owner)
    {
      accs[i].username := Username(accs[i].owner);
      i := i + 1;
    }
  }
}

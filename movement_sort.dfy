/** `sortMovements` (script.js): pair each movement with its date, sort the
    pairs by amount, and split them again. The stored ledger is never touched:
    the function works on values and returns new sequences. */
module MovementSort {
  import opened Basics

  /** `[movs[i], dates[i]]`: a movement amount with its own date. */
  type Pair = (real, Stamp)

  /** `movs.forEach((el, i) => arrCombined.push([movs[i], dates[i]]))`:
      pairs the i-th movement with the i-th date. */
  function Zip(movs: seq<real>, dates: seq<Stamp>): seq<Pair>
    requires |movs| == |dates|
  {
    seq(|movs|, i requires 0 <= i < |movs| => (movs[i], dates[i]))
  }

  /** The `el[0]` of every pair, in order (the `sortedMovs` pushes). */
  function Amounts(ps: seq<Pair>): (r: seq<real>)
    ensures |r| == |ps|
  {
    if ps == [] then [] else [ps[0].0] + Amounts(ps[1..])
  }

  /** The `el[1]` of every pair, in order (the `sortedDates` pushes). */
  function Dates(ps: seq<Pair>): (r: seq<Stamp>)
    ensures |r| == |ps|
  {
    if ps == [] then [] else [ps[0].1] + Dates(ps[1..])
  }

  /** Splitting the pairs again gives back the movements and the dates. */
  lemma {:induction false} UnzipZip(movs: seq<real>, dates: seq<Stamp>)
    requires |movs| == |dates|
    ensures Amounts(Zip(movs, dates)) == movs
    ensures Dates(Zip(movs, dates)) == dates
  {
    if movs != [] {
      UnzipZip(movs[1..], dates[1..]);
      assert Zip(movs, dates)[1..] == Zip(movs[1..], dates[1..]);
    }
  }

  /** Pairing the amounts with the dates of some pairs gives back the pairs. */
  lemma {:induction false} ZipUnzip(ps: seq<Pair>)
    ensures Zip(Amounts(ps), Dates(ps)) == ps
  {
    if ps != [] {
      ZipUnzip(ps[1..]);
      assert Zip(Amounts(ps), Dates(ps))[1..] == Zip(Amounts(ps[1..]), Dates(ps[1..]));
    }
  }

  /** Smallest amount first. */
  ghost predicate SortedByAmount(ps: seq<Pair>)
  {
    forall i, j :: 0 <= i < j < |ps| ==> ps[i].0 <= ps[j].0
  }

  /** Puts `p` in front of the first pair whose amount is not smaller, so
      among equal amounts the pair inserted first stays first. */
  function Insert(p: Pair, ps: seq<Pair>): (r: seq<Pair>)
    ensures |r| == |ps| + 1
    ensures multiset(r) == multiset(ps) + multiset{p}
  {
    if ps == [] || p.0 <= ps[0].0 then [p] + ps
    else
      assert ps == [ps[0]] + ps[1..];
      [ps[0]] + Insert(p, ps[1..])
  }

  /** Inserting a pair no smaller than a bound into pairs no smaller than it
      yields pairs no smaller than it. */
  lemma {:induction false} InsertAbove(p: Pair, ps: seq<Pair>, low: real)
    requires low <= p.0 && forall k :: 0 <= k < |ps| ==> low <= ps[k].0
    ensures forall k :: 0 <= k < |Insert(p, ps)| ==> low <= Insert(p, ps)[k].0
  {
    if ps != [] && p.0 > ps[0].0 {
      InsertAbove(p, ps[1..], low);
      assert Insert(p, ps) == [ps[0]] + Insert(p, ps[1..]);
    }
  }

  /** Inserting into a sequence sorted by amount keeps it sorted. */
  lemma {:induction false} InsertSorted(p: Pair, ps: seq<Pair>)
    requires SortedByAmount(ps)
    ensures SortedByAmount(Insert(p, ps))
  {
    if ps != [] && p.0 > ps[0].0 {
      InsertSorted(p, ps[1..]);
      InsertAbove(p, ps[1..], ps[0].0);
      assert Insert(p, ps) == [ps[0]] + Insert(p, ps[1..]);
    }
  }

  /** `arrCombined.sort((a, b) => a[0] - b[0])`: `Array.prototype.sort` with
      an ascending comparator on the amount; a stable insertion sort. */
  function SortByAmount(ps: seq<Pair>): (r: seq<Pair>)
    ensures |r| == |ps|
    ensures SortedByAmount(r)
    ensures multiset(r) == multiset(ps)
  {
    if ps == [] then []
    else
      assert ps == [ps[0]] + ps[1..];
      var rest := SortByAmount(ps[1..]);
      InsertSorted(ps[0], rest);
      Insert(ps[0], rest)
  }

  /** The first `forEach` of `sortMovements`: `arrCombined` built one pair
      at a time. */
  method Combine(movs: seq<real>, dates: seq<Stamp>) returns (combined: seq<Pair>)
    requires |movs| == |dates|
    ensures combined == Zip(movs, dates)
  {
    combined := [];
    var i := 0;
    while i < |movs|
      invariant 0 <= i <= |movs|
      invariant |combined| == i
      invariant forall k :: 0 <= k < i ==> combined[k] == (movs[k], dates[k])
    {
      combined := combined + [(movs[i], dates[i])];
      i := i + 1;
    }
  }

  /** The second `forEach`: `el[0]` pushed onto `sortedMovs` and `el[1]` onto
      `sortedDates`, pair by pair. */
  method Separate(combined: seq<Pair>) returns (sortedMovs: seq<real>, sortedDates: seq<Stamp>)
    ensures |sortedMovs| == |combined| && |sortedDates| == |combined|
    ensures forall k :: 0 <= k < |combined| ==> sortedMovs[k] == combined[k].0
    ensures Zip(sortedMovs, sortedDates) == combined
  {
    sortedMovs, sortedDates := [], [];
    var j := 0;
    while j < |combined|
      invariant 0 <= j <= |combined|
      invariant |sortedMovs| == j && |sortedDates| == j
      invariant forall k :: 0 <= k < j ==> sortedMovs[k] == combined[k].0 && sortedDates[k] == combined[k].1
    {
      sortedMovs := sortedMovs + [combined[j].0];
      sortedDates := sortedDates + [combined[j].1];
      j := j + 1;
    }
  }

  /** `sortMovements(movs, dates)`: the amounts come out in non-decreasing
      order, and the output pairs are the input pairs rearranged, so every
      amount keeps its own date. */
  method SortMovements(movs: seq<real>, dates: seq<Stamp>)
    returns (sortedMovs: seq<real>, sortedDates: seq<Stamp>)
    requires |movs| == |dates|
    ensures |sortedMovs| == |movs| && |sortedDates| == |movs|
    ensures forall i, j :: 0 <= i < j < |sortedMovs| ==> sortedMovs[i] <= sortedMovs[j]
    ensures multiset(Zip(sortedMovs, sortedDates)) == multiset(Zip(movs, dates))
    ensures Zip(sortedMovs, sortedDates) == SortByAmount(Zip(movs, dates))
  {
    var combined := Combine(movs, dates);
    combined := SortByAmount(combined);
    sortedMovs, sortedDates := Separate(combined);
  }
}

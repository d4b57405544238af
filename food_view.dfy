/** The derived view of the foods page: the search filter over the food
    list followed by a stable numeric sort on quantity or revenue. The sort
    is specified by `SortSpec`, an insertion sort written as a function, and
    performed in place on a fresh array by `SortInPlace`. */
module FoodView {
  import opened Wrappers
  import opened Text
  import opened Entities

  datatype SortField = Quantity | Revenue
  datatype SortOrder = Asc | Desc

  /** The sort the table is showing: a field and a direction. */
  datatype SortBy = SortBy(field: SortField, order: SortOrder)

  /** The other direction. */
  function Flip(order: SortOrder): (r: SortOrder)
    ensures r != order
  {
    if order == Asc then Desc else Asc
  }

  // ---------------------------------------------------------------------
  // Filtering
  // ---------------------------------------------------------------------

  /** The search predicate: the lower-cased name or the lower-cased category
      contains the lower-cased term; a missing category never matches. */
  predicate Matches(food: FoodStat, term: string)
  {
    Contains(Lower(food.foodName), Lower(term))
    || (food.category.Some? && Contains(Lower(food.category.value), Lower(term)))
  }

  /** `foods.filter(food => Matches(food, term))`. */
  function Select(foods: seq<FoodStat>, term: string): (r: seq<FoodStat>)
    ensures |r| <= |foods|
    ensures forall f :: f in r <==> f in foods && Matches(f, term)
    ensures forall f :: multiset(r)[f] == if Matches(f, term) then multiset(foods)[f] else 0
  {
    if foods == [] then []
    else
      var rest := Select(foods[1..], term);
      assert foods == [foods[0]] + foods[1..];
      if Matches(foods[0], term) then [foods[0]] + rest else rest
  }

  /** The filter step: an empty search term keeps every row. */
  function FilterFoods(foods: seq<FoodStat>, term: string): seq<FoodStat>
  {
    if term == "" then foods else Select(foods, term)
  }

  /** Filtering the filtered list with the same term changes nothing. */
  lemma {:induction false} SelectIdempotent(foods: seq<FoodStat>, term: string)
    ensures Select(Select(foods, term), term) == Select(foods, term)
  {
    if foods != [] {
      SelectIdempotent(foods[1..], term);
    }
  }

  lemma FilterIdempotent(foods: seq<FoodStat>, term: string)
    ensures FilterFoods(FilterFoods(foods, term), term) == FilterFoods(foods, term)
  {
    if term != "" {
      SelectIdempotent(foods, term);
    }
  }

  /** What the filter step keeps: everything for an empty term, and otherwise
      exactly the rows that match, each as often as in the input and in the
      input's order. */
  lemma FilterFoodsKeeps(foods: seq<FoodStat>, term: string)
    ensures term == "" ==> FilterFoods(foods, term) == foods
    ensures term != "" ==> forall f ::
      multiset(FilterFoods(foods, term))[f] == if Matches(f, term) then multiset(foods)[f] else 0
    ensures forall a, b :: a + b == foods ==>
      FilterFoods(foods, term) == FilterFoods(a, term) + FilterFoods(b, term)
  {
    forall a, b | a + b == foods
      ensures FilterFoods(foods, term) == FilterFoods(a, term) + FilterFoods(b, term)
    {
      SelectAppend(a, b, term);
    }
  }

  /** The filter keeps the rows in input order: filtering two runs of rows
      gives the two filtered runs one after the other. */
  lemma {:induction false} SelectAppend(a: seq<FoodStat>, b: seq<FoodStat>, term: string)
    ensures Select(a + b, term) == Select(a, term) + Select(b, term)
  {
    if a == [] {
      assert a + b == b;
    } else {
      assert (a + b)[0] == a[0];
      assert (a + b)[1..] == a[1..] + b;
      SelectAppend(a[1..], b, term);
      if Matches(a[0], term) {
        calc {
          Select(a + b, term);
          [a[0]] + Select(a[1..] + b, term);
          [a[0]] + (Select(a[1..], term) + Select(b, term));
          ([a[0]] + Select(a[1..], term)) + Select(b, term);
          Select(a, term) + Select(b, term);
        }
      } else {
        calc {
          Select(a + b, term);
          Select(a[1..] + b, term);
          Select(a[1..], term) + Select(b, term);
          Select(a, term) + Select(b, term);
        }
      }
    }
  }

  /** The `if (searchTerm)` guard changes nothing: every row contains the
      empty term, so filtering by it keeps every row. */
  lemma {:induction false} SelectEmptyTerm(foods: seq<FoodStat>)
    ensures Select(foods, "") == foods
  {
    if foods != [] {
      assert Lower("") == "";
      ContainsEmpty(Lower(foods[0].foodName));
      SelectEmptyTerm(foods[1..]);
    }
  }

  /** The search ignores the case of the term: a term and its lower-cased
      form match the same rows. */
  lemma MatchesIgnoresTermCase(food: FoodStat, term: string)
    ensures Matches(food, Lower(term)) <==> Matches(food, term)
  {
    LowerIdempotent(term);
  }

  // ---------------------------------------------------------------------
  // Sorting
  // ---------------------------------------------------------------------

  /** `food[field]`, which may be absent. */
  function FieldOf(field: SortField, food: FoodStat): Option<int>
  {
    match field
    case Quantity => food.quantity
    case Revenue => food.revenue
  }

  /** `food[field] || 0`: a missing field counts as zero. */
  function Key(field: SortField, food: FoodStat): (k: int)
    ensures FieldOf(field, food).None? ==> k == 0
    ensures FieldOf(field, food).Some? ==> k == FieldOf(field, food).value
  {
    FieldOf(field, food).GetOr(0)
  }

  /** The position of a row in the chosen direction: ascending sorts by the key,
      descending by its negation. */
  function Rank(sortBy: SortBy, food: FoodStat): int
  {
    if sortBy.order == Asc then Key(sortBy.field, food) else -Key(sortBy.field, food)
  }

  /** The comparator `aValue - bValue` (ascending) or `bValue - aValue`
      (descending) is negative: `x` goes before `y`. */
  predicate Precedes(sortBy: SortBy, x: FoodStat, y: FoodStat)
  {
    Rank(sortBy, x) < Rank(sortBy, y)
  }

  /** Inserts `x` into `s` from the back, moving past every element that `x`
      strictly precedes; this is one step of insertion sort. */
  function InsertLast(sortBy: SortBy, s: seq<FoodStat>, x: FoodStat): seq<FoodStat>
  {
    if s == [] || !Precedes(sortBy, x, s[|s| - 1]) then s + [x]
    else InsertLast(sortBy, s[..|s| - 1], x) + [s[|s| - 1]]
  }

  /** `result.sort(comparator)` on a list: the stable sort of `s`. */
  function SortSpec(sortBy: SortBy, s: seq<FoodStat>): seq<FoodStat>
  {
    if s == [] then []
    else InsertLast(sortBy, SortSpec(sortBy, s[..|s| - 1]), s[|s| - 1])
  }

  /** Ordered by rank: non-decreasing key ascending, non-increasing descending. */
  ghost predicate Sorted(sortBy: SortBy, s: seq<FoodStat>)
  {
    forall i, j :: 0 <= i < j < |s| ==> Rank(sortBy, s[i]) <= Rank(sortBy, s[j])
  }

  /** The rows of `s` whose key is `k`, in their order in `s`. Two lists agree
      on `WithKey` for every `k` exactly when rows with equal keys keep their
      relative order. */
  function WithKey(field: SortField, s: seq<FoodStat>, k: int): seq<FoodStat>
  {
    if s == [] then []
    else WithKey(field, s[..|s| - 1], k) + (if Key(field, s[|s| - 1]) == k then [s[|s| - 1]] else [])
  }

  /** A stable sort keeps, for every key, the rows with that key in input order. */
  ghost predicate KeepsTies(field: SortField, s: seq<FoodStat>, r: seq<FoodStat>)
  {
    forall k :: WithKey(field, r, k) == WithKey(field, s, k)
  }

  lemma {:induction false} InsertLastMultiset(sortBy: SortBy, s: seq<FoodStat>, x: FoodStat)
    ensures multiset(InsertLast(sortBy, s, x)) == multiset(s) + multiset{x}
  {
    if s != [] && Precedes(sortBy, x, s[|s| - 1]) {
      InsertLastMultiset(sortBy, s[..|s| - 1], x);
      assert s == s[..|s| - 1] + [s[|s| - 1]];
    }
  }

  /** The sort is a permutation of its input. */
  lemma {:induction false} SortSpecPermutation(sortBy: SortBy, s: seq<FoodStat>)
    ensures multiset(SortSpec(sortBy, s)) == multiset(s)
  {
    if s != [] {
      SortSpecPermutation(sortBy, s[..|s| - 1]);
      InsertLastMultiset(sortBy, SortSpec(sortBy, s[..|s| - 1]), s[|s| - 1]);
      assert s == s[..|s| - 1] + [s[|s| - 1]];
    }
  }

  lemma {:induction false} InsertLastSorted(sortBy: SortBy, s: seq<FoodStat>, x: FoodStat)
    requires Sorted(sortBy, s)
    ensures Sorted(sortBy, InsertLast(sortBy, s, x))
  {
    if s != [] && Precedes(sortBy, x, s[|s| - 1]) {
      var init, last := s[..|s| - 1], s[|s| - 1];
      InsertLastSorted(sortBy, init, x);
      InsertLastMultiset(sortBy, init, x);
      var t := InsertLast(sortBy, init, x);
      forall i | 0 <= i < |t|
        ensures Rank(sortBy, t[i]) <= Rank(sortBy, last)
      {
        assert t[i] in multiset(t);
        assert t[i] in multiset(init) || t[i] == x;
      }
    }
  }

  /** The sort orders its output by rank. */
  lemma {:induction false} SortSpecSorted(sortBy: SortBy, s: seq<FoodStat>)
    ensures Sorted(sortBy, SortSpec(sortBy, s))
  {
    if s != [] {
      SortSpecSorted(sortBy, s[..|s| - 1]);
      InsertLastSorted(sortBy, SortSpec(sortBy, s[..|s| - 1]), s[|s| - 1]);
    }
  }

  lemma {:induction false} WithKeyAppend(field: SortField, s: seq<FoodStat>, t: seq<FoodStat>, k: int)
    ensures WithKey(field, s + t, k) == WithKey(field, s, k) + WithKey(field, t, k)
  {
    if t != [] {
      WithKeyAppend(field, s, t[..|t| - 1], k);
      assert (s + t)[..|s + t| - 1] == s + t[..|t| - 1];
    } else {
      assert s + t == s;
    }
  }

  /** Inserting `x` only adds `x` behind the rows of its own key. */
  lemma {:induction false} InsertLastWithKey(sortBy: SortBy, s: seq<FoodStat>, x: FoodStat, k: int)
    ensures WithKey(sortBy.field, InsertLast(sortBy, s, x), k)
         == WithKey(sortBy.field, s, k) + (if Key(sortBy.field, x) == k then [x] else [])
  {
    var f := sortBy.field;
    if s == [] || !Precedes(sortBy, x, s[|s| - 1]) {
      WithKeyAppend(f, s, [x], k);
    } else {
      var init, last := s[..|s| - 1], s[|s| - 1];
      InsertLastWithKey(sortBy, init, x, k);
      WithKeyAppend(f, InsertLast(sortBy, init, x), [last], k);
      assert Key(f, x) != Key(f, last);
    }
  }

  /** The sort is stable: rows with equal keys keep their relative order. */
  lemma {:induction false} SortSpecStable(sortBy: SortBy, s: seq<FoodStat>)
    ensures KeepsTies(sortBy.field, s, SortSpec(sortBy, s))
  {
    if s != [] {
      SortSpecStable(sortBy, s[..|s| - 1]);
      forall k
        ensures WithKey(sortBy.field, SortSpec(sortBy, s), k) == WithKey(sortBy.field, s, k)
      {
        InsertLastWithKey(sortBy, SortSpec(sortBy, s[..|s| - 1]), s[|s| - 1], k);
      }
    }
  }

  lemma {:induction false} WithKeyLast(field: SortField, s: seq<FoodStat>, k: int)
    requires WithKey(field, s, k) != []
    ensures WithKey(field, s, k)[|WithKey(field, s, k)| - 1] in s
    ensures Key(field, WithKey(field, s, k)[|WithKey(field, s, k)| - 1]) == k
  {
    var init := s[..|s| - 1];
    if Key(field, s[|s| - 1]) != k {
      WithKeyLast(field, init, k);
      assert init[..] <= s;
    }
  }

  /** In a sorted list no row ranks after the last one. */
  lemma RankAtMostLast(sortBy: SortBy, s: seq<FoodStat>, y: FoodStat)
    requires Sorted(sortBy, s) && y in s
    ensures Rank(sortBy, y) <= Rank(sortBy, s[|s| - 1])
  {
  }

  /** A non-empty list has rows with the key of its last row. */
  lemma LastKeyPresent(field: SortField, s: seq<FoodStat>)
    requires s != []
    ensures WithKey(field, s, Key(field, s[|s| - 1])) != []
  {
  }

  /** Two sorted lists that agree on the rows of every key end with the same row. */
  lemma SameLast(sortBy: SortBy, a: seq<FoodStat>, b: seq<FoodStat>)
    requires a != [] && b != []
    requires Sorted(sortBy, a) && Sorted(sortBy, b)
    requires KeepsTies(sortBy.field, a, b)
    ensures a[|a| - 1] == b[|b| - 1]
  {
    var f := sortBy.field;
    var la, lb := a[|a| - 1], b[|b| - 1];
    var ka, kb := Key(f, la), Key(f, lb);
    var wa, wb := WithKey(f, a, ka), WithKey(f, b, kb);
    assert wa == WithKey(f, a[..|a| - 1], ka) + [la];
    assert wb == WithKey(f, b[..|b| - 1], kb) + [lb];
    assert WithKey(f, b, ka) == wa;
    assert WithKey(f, a, kb) == wb;
    WithKeyLast(f, b, ka);
    WithKeyLast(f, a, kb);
    RankAtMostLast(sortBy, b, la);
    RankAtMostLast(sortBy, a, lb);
    assert ka == kb;
  }

  /** Dropping a common last row keeps the two lists in agreement. */
  lemma DropLastKeepsTies(field: SortField, a: seq<FoodStat>, b: seq<FoodStat>)
    requires a != [] && b != [] && a[|a| - 1] == b[|b| - 1]
    requires KeepsTies(field, a, b)
    ensures KeepsTies(field, a[..|a| - 1], b[..|b| - 1])
  {
    var last, a', b' := a[|a| - 1], a[..|a| - 1], b[..|b| - 1];
    forall k
      ensures WithKey(field, b', k) == WithKey(field, a', k)
    {
      var tail := if Key(field, last) == k then [last] else [];
      var wa, wb := WithKey(field, a, k), WithKey(field, b, k);
      assert wa == WithKey(field, a', k) + tail;
      assert wb == WithKey(field, b', k) + tail;
      assert WithKey(field, a', k) == wa[..|wa| - |tail|];
      assert WithKey(field, b', k) == wb[..|wb| - |tail|];
    }
  }

  /** A sorted list that agrees with another sorted list on the rows of every
      key is that list: the result of a stable sort does not depend on the
      algorithm that produced it. */
  lemma {:induction false} SortedUnique(sortBy: SortBy, a: seq<FoodStat>, b: seq<FoodStat>)
    requires Sorted(sortBy, a) && Sorted(sortBy, b)
    requires KeepsTies(sortBy.field, a, b)
    ensures a == b
    decreases |a|
  {
    var f := sortBy.field;
    if a == [] && b == [] {
    } else if a == [] {
      LastKeyPresent(f, b);
      assert false;
    } else if b == [] {
      LastKeyPresent(f, a);
      assert false;
    } else {
      SameLast(sortBy, a, b);
      DropLastKeepsTies(f, a, b);
      SortedUnique(sortBy, a[..|a| - 1], b[..|b| - 1]);
      assert a == a[..|a| - 1] + [a[|a| - 1]];
      assert b == b[..|b| - 1] + [b[|b| - 1]];
    }
  }

  /** What the sort promises about its output, in terms of the source's keys:
      a permutation, ascending or descending in `field || 0`, ties in input order. */
  lemma SortSpecCorrect(sortBy: SortBy, s: seq<FoodStat>)
    ensures multiset(SortSpec(sortBy, s)) == multiset(s)
    ensures sortBy.order == Asc ==> forall i, j :: 0 <= i < j < |SortSpec(sortBy, s)| ==>
      Key(sortBy.field, SortSpec(sortBy, s)[i]) <= Key(sortBy.field, SortSpec(sortBy, s)[j])
    ensures sortBy.order == Desc ==> forall i, j :: 0 <= i < j < |SortSpec(sortBy, s)| ==>
      Key(sortBy.field, SortSpec(sortBy, s)[i]) >= Key(sortBy.field, SortSpec(sortBy, s)[j])
    ensures KeepsTies(sortBy.field, s, SortSpec(sortBy, s))
  {
    SortSpecPermutation(sortBy, s);
    SortSpecSorted(sortBy, s);
    SortSpecStable(sortBy, s);
  }

  /** Any stable sort by the same comparator gives `SortSpec`'s result. */
  lemma StableSortIsSortSpec(sortBy: SortBy, s: seq<FoodStat>, r: seq<FoodStat>)
    requires Sorted(sortBy, r) && KeepsTies(sortBy.field, s, r)
    ensures r == SortSpec(sortBy, s)
  {
    SortSpecSorted(sortBy, s);
    SortSpecStable(sortBy, s);
    SortedUnique(sortBy, SortSpec(sortBy, s), r);
  }

  /** One pass of insertion sort: with `a[..i]` already sorted, moves `a[i]`
      left past the elements it strictly precedes. */
  method InsertInPlace(a: array<FoodStat>, i: nat, sortBy: SortBy)
    requires i < a.Length
    modifies a
    ensures a[..i + 1] == InsertLast(sortBy, old(a[..i]), old(a[i]))
    ensures a[i + 1..] == old(a[i + 1..])
  {
    var x := a[i];
    ghost var sorted := a[..i];
    var j := i;
    while j > 0 && Precedes(sortBy, x, a[j - 1])
      invariant 0 <= j <= i
      invariant a[..j] == sorted[..j]
      invariant a[j + 1..i + 1] == sorted[j..]
      invariant a[i + 1..] == old(a[i + 1..])
      invariant InsertLast(sortBy, sorted, x) == InsertLast(sortBy, sorted[..j], x) + sorted[j..]
    {
      assert sorted[..j][..j - 1] == sorted[..j - 1];
      a[j] := a[j - 1];
      j := j - 1;
    }
    a[j] := x;
    assert a[..i + 1] == sorted[..j] + [x] + sorted[j..];
  }

  /** Sorts `a` in place by insertion. */
  method SortInPlace(a: array<FoodStat>, sortBy: SortBy)
    modifies a
    ensures a[..] == SortSpec(sortBy, old(a[..]))
  {
    var i := 0;
    while i < a.Length
      invariant 0 <= i <= a.Length
      invariant a[..i] == SortSpec(sortBy, old(a[..i]))
      invariant a[i..] == old(a[i..])
    {
      assert old(a[..i + 1]) == old(a[..i]) + [old(a[i])];
      InsertInPlace(a, i, sortBy);
      i := i + 1;
    }
    assert a[..a.Length] == a[..];
    assert old(a[..a.Length]) == old(a[..]);
  }

  /** The rows the foods table shows. */
  function Derived(foods: seq<FoodStat>, term: string, sortBy: SortBy): seq<FoodStat>
  {
    SortSpec(sortBy, FilterFoods(foods, term))
  }

  /** Rows of one key that both match the search appear in the same order in
      the filtered list as in the food list. */
  lemma {:induction false} WithKeySelect(field: SortField, s: seq<FoodStat>, term: string, k: int)
    ensures WithKey(field, Select(s, term), k) == Select(WithKey(field, s, k), term)
  {
    if s != [] {
      var init, last := s[..|s| - 1], s[|s| - 1];
      assert s == init + [last];
      SelectAppend(init, [last], term);
      WithKeySelect(field, init, term, k);
      WithKeyAppend(field, Select(init, term), Select([last], term), k);
      SelectAppend(WithKey(field, init, k), if Key(field, last) == k then [last] else [], term);
      assert [last][1..] == [];
      if Matches(last, term) {
        assert Select([last], term) == [last];
        assert WithKey(field, [last], k) == WithKey(field, [], k) + (if Key(field, last) == k then [last] else []);
      } else {
        assert Select([last], term) == [];
      }
    }
  }

  /** The table keeps ties in the order of the food list: for every key, the
      rows shown with that key are the matching rows of that key, in the
      order the server sent them. */
  lemma DerivedKeepsTies(foods: seq<FoodStat>, term: string, sortBy: SortBy, k: int)
    ensures WithKey(sortBy.field, Derived(foods, term, sortBy), k)
         == FilterFoods(WithKey(sortBy.field, foods, k), term)
  {
    SortSpecStable(sortBy, FilterFoods(foods, term));
    if term != "" {
      WithKeySelect(sortBy.field, foods, term, k);
    }
  }

  /** `filteredAndSortedFoods`: copies the list, filters the copy and sorts it
      in place. It allocates new arrays only, so the list it reads from is
      never reordered. */
  method FilteredAndSorted(foods: seq<FoodStat>, term: string, sortBy: SortBy) returns (r: seq<FoodStat>)
    ensures r == Derived(foods, term, sortBy)
  {
    var result := new FoodStat[|foods|](i requires 0 <= i < |foods| => foods[i]);
    assert result[..] == foods;
    if term != "" {
      var kept := Select(result[..], term);
      result := new FoodStat[|kept|](i requires 0 <= i < |kept| => kept[i]);
      assert result[..] == kept;
    }
    SortInPlace(result, sortBy);
    r := result[..];
  }

  // ---------------------------------------------------------------------
  // Summary line and average price
  // ---------------------------------------------------------------------

  /** `reduce((sum, food) => sum + (food.quantity || 0), 0)`. */
  function TotalSold(rows: seq<FoodStat>): int
  {
    if rows == [] then 0 else Key(Quantity, rows[0]) + TotalSold(rows[1..])
  }

  lemma {:induction false} TotalSoldAppend(s: seq<FoodStat>, t: seq<FoodStat>)
    ensures TotalSold(s + t) == TotalSold(s) + TotalSold(t)
  {
    if s != [] {
      TotalSoldAppend(s[1..], t);
      assert (s + t)[1..] == s[1..] + t;
    } else {
      assert s + t == t;
    }
  }

  /** Taking one row out of a list takes its quantity out of the total. */
  lemma TotalSoldRemove(t: seq<FoodStat>, i: nat)
    requires i < |t|
    ensures TotalSold(t) == Key(Quantity, t[i]) + TotalSold(t[..i] + t[i + 1..])
  {
    assert t == t[..i] + ([t[i]] + t[i + 1..]);
    TotalSoldAppend(t[..i], [t[i]] + t[i + 1..]);
    TotalSoldAppend(t[..i], t[i + 1..]);
    assert ([t[i]] + t[i + 1..])[1..] == t[i + 1..];
  }

  /** The total does not depend on the order of the rows. */
  lemma {:induction false} TotalSoldPermutation(s: seq<FoodStat>, t: seq<FoodStat>)
    requires multiset(s) == multiset(t)
    ensures TotalSold(s) == TotalSold(t)
    decreases |s|
  {
    if s != [] {
      var x := s[0];
      assert x in multiset(t);
      var i :| 0 <= i < |t| && t[i] == x;
      var t' := t[..i] + t[i + 1..];
      assert t == t[..i] + [x] + t[i + 1..];
      assert s == [x] + s[1..];
      assert multiset(s[1..]) == multiset(s) - multiset{x};
      assert multiset(t') == multiset(t) - multiset{x};
      TotalSoldPermutation(s[1..], t');
      TotalSoldRemove(t, i);
    }
  }

  /** The summary under the table: the row count and total sold are those of
      the filtered rows, whatever the sort. */
  lemma SummaryOfDerived(foods: seq<FoodStat>, term: string, sortBy: SortBy)
    ensures |Derived(foods, term, sortBy)| == |FilterFoods(foods, term)|
    ensures TotalSold(Derived(foods, term, sortBy)) == TotalSold(FilterFoods(foods, term))
  {
    SortSpecPermutation(sortBy, FilterFoods(foods, term));
    assert |multiset(Derived(foods, term, sortBy))| == |Derived(foods, term, sortBy)|;
    assert |multiset(FilterFoods(foods, term))| == |FilterFoods(foods, term)|;
    TotalSoldPermutation(Derived(foods, term, sortBy), FilterFoods(foods, term));
  }

  /** The average price column: zero unless revenue and quantity are both
      present and positive, and then the quotient `revenue / quantity`. */
  datatype AveragePrice = ZeroPrice | Quotient(revenue: int, quantity: int)

  function AveragePriceOf(food: FoodStat): (r: AveragePrice)
    ensures r.Quotient? <==> Key(Revenue, food) > 0 && Key(Quantity, food) > 0
    ensures r.Quotient? ==> r.revenue == Key(Revenue, food) && r.quantity == Key(Quantity, food)
  {
    match (food.revenue, food.quantity)
    case (Some(rev), Some(qty)) =>
      if rev > 0 && qty > 0 then Quotient(rev, qty) else ZeroPrice
    case _ => ZeroPrice
  }

  // ---------------------------------------------------------------------
  // The two worked examples of the foods search
  // ---------------------------------------------------------------------

  const Osh := FoodStat("osh", Some("Asosiy ovqat"), Some(245), Some(8575000))
  const Pizza := FoodStat("pizza", Some("Fast food"), Some(89), Some(4450000))

  /** A string none of whose characters is the first character of `t` does not contain `t`. */
  lemma MissingFirstChar(s: string, t: string)
    requires t != [] && forall i :: 0 <= i < |s| ==> s[i] != t[0]
    ensures !Contains(s, t)
  {
    forall i: nat | i <= |s|
      ensures !OccursAt(s, t, i)
    {
      if i + |t| <= |s| {
        assert s[i..i + |t|][0] == s[i];
      }
    }
  }

  /** Searching "pi" by quantity, descending, keeps only pizza. */
  lemma SearchExample()
    ensures Derived([Osh, Pizza], "pi", SortBy(Quantity, Desc)) == [Pizza]
  {
    assert Lower("pi") == "pi";
    assert Lower("pizza") == "pizza";
    assert Lower("osh") == "osh";
    assert Lower("Asosiy ovqat") == "asosiy ovqat";
    assert OccursAt("pizza", "pi", 0);
    MissingFirstChar("osh", "pi");
    MissingFirstChar("asosiy ovqat", "pi");
    assert Select([Osh, Pizza], "pi") == [Pizza];
    assert SortSpec(SortBy(Quantity, Desc), [Pizza]) == [Pizza];
  }

  /** No search, by revenue ascending: pizza (4450000) before osh (8575000). */
  lemma RevenueAscExample()
    ensures Derived([Osh, Pizza], "", SortBy(Revenue, Asc)) == [Pizza, Osh]
  {
    var sortBy := SortBy(Revenue, Asc);
    assert [Osh, Pizza][..1] == [Osh];
    assert SortSpec(sortBy, [Osh]) == [Osh];
    assert [Osh][..0] == [];
    assert InsertLast(sortBy, [Osh], Pizza) == [Pizza, Osh];
  }
}

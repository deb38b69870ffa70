/** The expense list (src/components/ExpenseList.tsx): the category filter
    applied to the store's expenses, the emptiness flag, and the choice
    between the "no expenses" message and one detail row per expense. */
module ExpenseList {
  import opened Common
  import opened Seqs

  /** One `ExpenseDetails` element, with its React key. */
  datatype Row = Details(key: string, expense: Expense)

  /** What the list renders: the empty-state message, or a header followed by rows. */
  datatype View = NoExpenses | Listing(rows: seq<Row>)

  /** Whether an expense passes the store's current category filter. */
  predicate Shown(e: Expense, currentCategory: Option<string>): (b: bool)
    ensures currentCategory.None? || currentCategory == Some("") ==> b
    ensures forall c :: currentCategory == Some(c) && |c| > 0 ==> (b <==> e.category == c)
  {
    !Truthy(currentCategory) || e.category == currentCategory.value
  }

  /** `filteredExpenses`: with a truthy category the expenses of that
      category, otherwise the collection itself. */
  function FilteredExpenses(expenses: seq<Expense>, currentCategory: Option<string>): (r: seq<Expense>)
    ensures forall e :: e in r ==> e in expenses && Shown(e, currentCategory)
    ensures !Truthy(currentCategory) ==> r == expenses
  {
    if Truthy(currentCategory) then
      Filter((e: Expense) => e.category == currentCategory.value, expenses)
    else
      expenses
  }

  /** Every expense of the current category is displayed, and only those. */
  lemma DisplayedExactly(expenses: seq<Expense>, currentCategory: Option<string>, e: Expense)
    ensures e in FilteredExpenses(expenses, currentCategory) <==> e in expenses && Shown(e, currentCategory)
  {
    if Truthy(currentCategory) {
      FilterMembership((x: Expense) => x.category == currentCategory.value, expenses, e);
    }
  }

  /** Each displayed expense appears as many times as in the store. */
  lemma DisplayedMultiplicity(expenses: seq<Expense>, currentCategory: Option<string>, e: Expense)
    ensures multiset(FilteredExpenses(expenses, currentCategory))[e] ==
      if Shown(e, currentCategory) then multiset(expenses)[e] else 0
  {
    if Truthy(currentCategory) {
      FilterMultiplicity((x: Expense) => x.category == currentCategory.value, expenses, e);
    }
  }

  /** The displayed expenses keep their relative order in the store. */
  lemma DisplayedInOrder(expenses: seq<Expense>, currentCategory: Option<string>)
    ensures IsSubsequence(FilteredExpenses(expenses, currentCategory), expenses)
  {
    if Truthy(currentCategory) {
      FilterIsSubsequence((x: Expense) => x.category == currentCategory.value, expenses);
    } else {
      SubsequenceOfItself(expenses);
    }
  }

  lemma {:induction false} SubsequenceOfItself(s: seq<Expense>)
    ensures IsSubsequence(s, s)
  {
    if s != [] {
      SubsequenceOfItself(s[1..]);
    }
  }

  /** When every expense already has the current category, the list shows
      the whole collection. */
  lemma AllOfCategoryShowsAll(expenses: seq<Expense>, currentCategory: Option<string>)
    requires forall i :: 0 <= i < |expenses| ==> Shown(expenses[i], currentCategory)
    ensures FilteredExpenses(expenses, currentCategory) == expenses
  {
    if Truthy(currentCategory) {
      FilterAll((x: Expense) => x.category == currentCategory.value, expenses);
    }
  }

  /** `isEmpty`: the displayed collection has no element. */
  function IsEmpty(filtered: seq<Expense>): (b: bool)
    ensures b <==> forall e :: e !in filtered
  {
    assert filtered != [] ==> filtered[0] in filtered;
    |filtered| == 0
  }

  /** The list is empty exactly when no stored expense passes the filter. */
  lemma EmptyIffNothingShown(expenses: seq<Expense>, currentCategory: Option<string>)
    ensures IsEmpty(FilteredExpenses(expenses, currentCategory)) <==>
      forall i :: 0 <= i < |expenses| ==> !Shown(expenses[i], currentCategory)
  {
    var r := FilteredExpenses(expenses, currentCategory);
    if i :| 0 <= i < |expenses| && Shown(expenses[i], currentCategory) {
      DisplayedExactly(expenses, currentCategory, expenses[i]);
    }
    if r != [] {
      assert r[0] in r;
    }
  }

  /** `filteredExpenses.map(expense => <ExpenseDetails key={expense.id} .../>)`. */
  function DetailRows(filtered: seq<Expense>): (rows: seq<Row>)
    ensures |rows| == |filtered|
    ensures forall i :: 0 <= i < |rows| ==> rows[i] == Details(filtered[i].id, filtered[i])
  {
    if filtered == [] then [] else [Details(filtered[0].id, filtered[0])] + DetailRows(filtered[1..])
  }

  /** The rendered list for the store's expenses and current category:
      the empty-state message when nothing is displayed, otherwise one row
      per displayed expense, in displayed order, keyed by its id. */
  function Render(expenses: seq<Expense>, currentCategory: Option<string>): (v: View)
    ensures v == NoExpenses <==> forall i :: 0 <= i < |expenses| ==> !Shown(expenses[i], currentCategory)
    ensures v.Listing? ==>
      var shown := FilteredExpenses(expenses, currentCategory);
      |v.rows| == |shown| > 0 &&
      forall i :: 0 <= i < |v.rows| ==> v.rows[i].key == shown[i].id && v.rows[i].expense == shown[i]
  {
    var filtered := FilteredExpenses(expenses, currentCategory);
    EmptyIffNothingShown(expenses, currentCategory);
    if IsEmpty(filtered) then NoExpenses else Listing(DetailRows(filtered))
  }

  /** No two stored expenses share an id. */
  predicate DistinctIds(expenses: seq<Expense>)
  {
    forall i, j :: 0 <= i < j < |expenses| ==> expenses[i].id != expenses[j].id
  }

  /** Filtering keeps ids distinct. */
  lemma {:induction false} FilterKeepsDistinctIds(p: Expense -> bool, s: seq<Expense>)
    requires DistinctIds(s)
    ensures DistinctIds(Filter(p, s))
  {
    if s != [] {
      var rest := Filter(p, s[1..]);
      FilterKeepsDistinctIds(p, s[1..]);
      if p(s[0]) {
        var r := [s[0]] + rest;
        forall i, j | 0 <= i < j < |r| ensures r[i].id != r[j].id {
          if i == 0 {
            assert r[j] in rest;
            var m :| 0 <= m < |s[1..]| && s[1..][m] == r[j];
            assert s[m + 1] == r[j];
          } else {
            assert r[i] == rest[i - 1] && r[j] == rest[j - 1];
          }
        }
      }
    }
  }

  /** With distinct ids in the store, no two rendered rows share a key. */
  lemma RowKeysDistinct(expenses: seq<Expense>, currentCategory: Option<string>)
    requires DistinctIds(expenses)
    ensures Render(expenses, currentCategory).Listing? ==>
      var rows := Render(expenses, currentCategory).rows;
      forall i, j :: 0 <= i < j < |rows| ==> rows[i].key != rows[j].key
  {
    if Truthy(currentCategory) {
      FilterKeepsDistinctIds((x: Expense) => x.category == currentCategory.value, expenses);
    }
  }
}

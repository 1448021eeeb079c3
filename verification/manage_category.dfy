/** The category manager: the four category lists (default and custom,
    income and expense) ordered by index, adding a custom category, and
    swipe-deleting custom categories. */
module ManageCategory {
  import opened Ledger
  import opened Seqs
  import opened Sorting

  function IndexKey(c: Category): real {
    c.index as real
  }

  predicate InList(c: Category, raw: string, custom: bool) {
    c.typeRaw == raw && c.isCustom == custom
  }

  /** The categories of one raw type that are (or are not) custom, by
      ascending index. */
  function CategoryList(cats: seq<Category>, raw: string, custom: bool): (r: seq<Category>)
    ensures SortedBy(r, IndexKey)
    ensures forall i :: 0 <= i < |r| ==> r[i] in cats && InList(r[i], raw, custom)
    ensures forall i :: 0 <= i < |cats| && InList(cats[i], raw, custom) ==> cats[i] in r
    ensures multiset(r) == multiset(Filter(cats, (c: Category) => InList(c, raw, custom)))
  {
    var mine := Filter(cats, (c: Category) => InList(c, raw, custom));
    var r := SortBy(mine, IndexKey);
    forall i | 0 <= i < |r| ensures r[i] in cats && InList(r[i], raw, custom) {
      assert r[i] in multiset(mine);
    }
    forall i | 0 <= i < |cats| && InList(cats[i], raw, custom) ensures cats[i] in r {
      assert cats[i] in multiset(r);
    }
    r
  }

  function DefaultIncome(cats: seq<Category>): seq<Category> { CategoryList(cats, "Income", false) }
  function DefaultExpense(cats: seq<Category>): seq<Category> { CategoryList(cats, "Expense", false) }
  function CustomIncome(cats: seq<Category>): seq<Category> { CategoryList(cats, "Income", true) }
  function CustomExpense(cats: seq<Category>): seq<Category> { CategoryList(cats, "Expense", true) }

  /** The custom list the screen shows for a transaction type. */
  function CustomList(cats: seq<Category>, ty: TransactionType): seq<Category> {
    CategoryList(cats, TransactionTypeRaw(ty), true)
  }

  /** A category is in a list exactly when it is stored and has the
      list's raw type and custom flag. */
  lemma InCategoryList(cats: seq<Category>, raw: string, custom: bool, c: Category)
    ensures c in CategoryList(cats, raw, custom) <==> c in cats && InList(c, raw, custom)
  {
    var r := CategoryList(cats, raw, custom);
    if c in r {
      var i :| 0 <= i < |r| && r[i] == c;
    }
    if c in cats && InList(c, raw, custom) {
      var i :| 0 <= i < |cats| && cats[i] == c;
    }
  }

  /** Every category with a known raw type is in exactly one of the four
      lists. */
  lemma ListsPartitionCategories(cats: seq<Category>, c: Category)
    requires c in cats && (c.typeRaw == "Income" || c.typeRaw == "Expense")
    ensures c in DefaultIncome(cats) <==> c.typeRaw == "Income" && !c.isCustom
    ensures c in DefaultExpense(cats) <==> c.typeRaw == "Expense" && !c.isCustom
    ensures c in CustomIncome(cats) <==> c.typeRaw == "Income" && c.isCustom
    ensures c in CustomExpense(cats) <==> c.typeRaw == "Expense" && c.isCustom
  {
    InCategoryList(cats, "Income", false, c);
    InCategoryList(cats, "Expense", false, c);
    InCategoryList(cats, "Income", true, c);
    InCategoryList(cats, "Expense", true, c);
  }

  /** The index a new category gets: the largest index in use, or 0 when
      there are no categories. It is not one past the largest, so the new
      category shares its index with an existing one. */
  function NewCategoryIndex(cats: seq<Category>): (n: int)
    ensures cats == [] ==> n == 0
    ensures cats != [] ==> exists i :: 0 <= i < |cats| && cats[i].index == n
    ensures forall i :: 0 <= i < |cats| ==> cats[i].index <= n
  {
    var byIndex := SortByDesc(cats, IndexKey);
    if byIndex == [] then 0
    else
      assert byIndex[0] in multiset(cats);
      forall i | 0 <= i < |cats| ensures cats[i].index <= byIndex[0].index {
        assert cats[i] in multiset(byIndex);
        var k :| 0 <= k < |byIndex| && byIndex[k] == cats[i];
        assert k == 0 || IndexKey(byIndex[0]) >= IndexKey(byIndex[k]);
      }
      byIndex[0].index
  }

  /** Adding a custom category of the selected type with the chosen name
      and icon. */
  function AddCategory(cats: seq<Category>, name: string, icon: string, ty: TransactionType,
                       id: CategoryId): (r: seq<Category>)
    ensures |r| == |cats| + 1 && r[..|cats|] == cats
    ensures var c := r[|cats|];
            && c.id == id && c.name == name && c.icon == icon && c.isCustom
            && c.typeRaw == TransactionTypeRaw(ty)
            && (forall i :: 0 <= i < |cats| ==> cats[i].index <= c.index)
  {
    cats + [Category(id, name, icon, true, TransactionTypeRaw(ty), NewCategoryIndex(cats))]
  }

  /** The added category appears in the custom list of its type, and, when
      categories already existed, with an index some existing category
      already has. */
  lemma AddedCategoryListed(cats: seq<Category>, name: string, icon: string, ty: TransactionType,
                            id: CategoryId)
    ensures var r := AddCategory(cats, name, icon, ty, id);
            r[|cats|] in CustomList(r, ty)
    ensures var r := AddCategory(cats, name, icon, ty, id);
            cats != [] ==> exists i :: 0 <= i < |cats| && cats[i].index == r[|cats|].index
  {
    var r := AddCategory(cats, name, icon, ty, id);
    assert InList(r[|cats|], TransactionTypeRaw(ty), true);
  }

  /** Swipe-delete: `offsets` are positions in the custom list of the
      selected type, and each names the category removed. */
  function DeleteCategories(cats: seq<Category>, ty: TransactionType, offsets: set<nat>): (r: seq<Category>)
    requires forall o :: o in offsets ==> o < |CustomList(cats, ty)|
    ensures forall i :: 0 <= i < |r| ==> r[i] in cats
    ensures forall o :: o in offsets ==> forall i :: 0 <= i < |r| ==> r[i].id != CustomList(cats, ty)[o].id
    ensures forall i :: 0 <= i < |cats| && (forall o :: o in offsets ==> CustomList(cats, ty)[o].id != cats[i].id)
              ==> cats[i] in r
  {
    var list := CustomList(cats, ty);
    var doomed := set o | o in offsets :: list[o].id;
    var r := Filter(cats, (c: Category) => c.id !in doomed);
    forall o, i | o in offsets && 0 <= i < |r| ensures r[i].id != list[o].id {
      assert list[o].id in doomed;
    }
    r
  }

  /** Deleting never removes a default category, nor one of the other type,
      when ids are unique. */
  lemma DeleteKeepsDefaults(cats: seq<Category>, ty: TransactionType, offsets: set<nat>, i: nat)
    requires forall o :: o in offsets ==> o < |CustomList(cats, ty)|
    requires forall j, k :: 0 <= j < k < |cats| ==> cats[j].id != cats[k].id
    requires i < |cats| && !InList(cats[i], TransactionTypeRaw(ty), true)
    ensures cats[i] in DeleteCategories(cats, ty, offsets)
  {
    var list := CustomList(cats, ty);
    forall o | o in offsets ensures list[o].id != cats[i].id {
      assert list[o] in cats && InList(list[o], TransactionTypeRaw(ty), true);
      var k :| 0 <= k < |cats| && cats[k] == list[o];
    }
  }
}

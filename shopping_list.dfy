/**
 * The aggregation behind RecipeViewSet.download_shopping_cart (api/views.py): the
 * IngredientRecipe rows of the recipes in the user's cart are grouped by
 * (ingredient name, measurement unit), their amounts summed, the groups ordered by
 * descending total, and one line "name (units) - total" rendered per group, joined by '\n'.
 *
 * The query is modelled as three functions: Group (GROUP BY with Sum), SortByTotal
 * (ORDER BY -total) and Render (the join comprehension). IsShoppingList states what the
 * result must be, independently of how it is computed; the database's order among equal
 * totals is left open.
 */
module ShoppingList {
  import Text

  /** The grouping key: `ingredient__name`, `ingredient__measurement_unit`. */
  datatype Key = Key(name: string, unit: string)

  /** One IngredientRecipe row of a cart recipe, joined with its ingredient. */
  datatype Item = Item(key: Key, amount: nat)

  /** One group of the result: `name`, `units`, `total`. */
  datatype Line = Line(key: Key, total: nat)

  /** The sum of the amounts of the rows with key `k`. */
  function SumFor(items: seq<Item>, k: Key): nat {
    if items == [] then 0
    else SumFor(items[..|items| - 1], k) + (if items[|items| - 1].key == k then items[|items| - 1].amount else 0)
  }

  /** The sum of all amounts. */
  function SumAll(items: seq<Item>): nat {
    if items == [] then 0 else SumAll(items[..|items| - 1]) + items[|items| - 1].amount
  }

  function SumTotals(lines: seq<Line>): nat {
    if lines == [] then 0 else lines[0].total + SumTotals(lines[1..])
  }

  function ItemKeys(items: seq<Item>): set<Key> {
    set it | it in items :: it.key
  }

  function LineKeys(lines: seq<Line>): set<Key> {
    set l | l in lines :: l.key
  }

  /** No two lines share a key. */
  predicate DistinctKeys(lines: seq<Line>) {
    forall i, j :: 0 <= i < j < |lines| ==> lines[i].key != lines[j].key
  }

  /** ORDER BY -total: no line has a larger total than a line before it. */
  predicate Ordered(lines: seq<Line>) {
    forall i, j :: 0 <= i < j < |lines| ==> lines[i].total >= lines[j].total
  }

  /** What the shopping list must be: one line per key occurring in the rows, and no other;
      each line's total is the sum of that key's amounts; ordered by descending total. */
  ghost predicate IsShoppingList(items: seq<Item>, lines: seq<Line>) {
    && DistinctKeys(lines)
    && LineKeys(lines) == ItemKeys(items)
    && (forall l :: l in lines ==> l.total == SumFor(items, l.key))
    && Ordered(lines)
  }

  // ---------------------------------------------------------------------------------------
  // The same two properties, stated head-first for the inductive proofs below

  /** The first key does not occur again, and the rest have distinct keys. */
  predicate KeysUnique(lines: seq<Line>) {
    lines == [] || (lines[0].key !in LineKeys(lines[1..]) && KeysUnique(lines[1..]))
  }

  /** Each total is at least the next one. */
  predicate NonIncreasing(lines: seq<Line>) {
    |lines| <= 1 || (lines[0].total >= lines[1].total && NonIncreasing(lines[1..]))
  }

  lemma LineKeysCons(x: Line, t: seq<Line>)
    ensures LineKeys([x] + t) == {x.key} + LineKeys(t)
  {
    assert forall l :: l in [x] + t <==> l == x || l in t;
  }

  lemma {:induction false} KeysUniqueIsDistinct(lines: seq<Line>)
    requires KeysUnique(lines)
    ensures DistinctKeys(lines)
  {
    if lines != [] {
      var t := lines[1..];
      KeysUniqueIsDistinct(t);
      forall i, j | 0 <= i < j < |lines| ensures lines[i].key != lines[j].key {
        assert lines[j] == t[j - 1];
        if i > 0 { assert lines[i] == t[i - 1]; }
        else { assert t[j - 1] in t; }
      }
    }
  }

  lemma {:induction false} NonIncreasingIsOrdered(lines: seq<Line>)
    requires NonIncreasing(lines)
    ensures Ordered(lines)
    ensures lines != [] ==> forall l :: l in lines ==> l.total <= lines[0].total
  {
    if |lines| > 1 {
      var t := lines[1..];
      NonIncreasingIsOrdered(t);
      forall i, j | 0 <= i < j < |lines| ensures lines[i].total >= lines[j].total {
        assert lines[j] == t[j - 1];
        if i > 0 { assert lines[i] == t[i - 1]; }
        else { assert t[j - 1] in t; }
      }
      forall l | l in lines ensures l.total <= lines[0].total {
        if l != lines[0] { assert l in t; }
      }
    }
  }

  // ---------------------------------------------------------------------------------------
  // GROUP BY name, unit with Sum('amount')

  /** The total of the first line with key `k`, or 0 when there is none. */
  function TotalOf(lines: seq<Line>, k: Key): nat {
    if lines == [] then 0
    else if lines[0].key == k then lines[0].total
    else TotalOf(lines[1..], k)
  }

  /** Fold one row into the groups: add to its key's group, or open a new group. */
  function AddItem(lines: seq<Line>, it: Item): seq<Line> {
    if lines == [] then [Line(it.key, it.amount)]
    else if lines[0].key == it.key then [Line(it.key, lines[0].total + it.amount)] + lines[1..]
    else [lines[0]] + AddItem(lines[1..], it)
  }

  function Group(items: seq<Item>): seq<Line> {
    if items == [] then [] else AddItem(Group(items[..|items| - 1]), items[|items| - 1])
  }

  lemma {:induction false} AddItemKeys(lines: seq<Line>, it: Item)
    ensures LineKeys(AddItem(lines, it)) == LineKeys(lines) + {it.key}
    ensures KeysUnique(lines) ==> KeysUnique(AddItem(lines, it))
  {
    if lines != [] {
      var t := lines[1..];
      assert lines == [lines[0]] + t;
      LineKeysCons(lines[0], t);
      if lines[0].key == it.key {
        assert AddItem(lines, it)[1..] == t;
        LineKeysCons(Line(it.key, lines[0].total + it.amount), t);
      } else {
        AddItemKeys(t, it);
        assert AddItem(lines, it)[1..] == AddItem(t, it);
        LineKeysCons(lines[0], AddItem(t, it));
      }
    }
  }

  lemma {:induction false} AddItemTotal(lines: seq<Line>, it: Item, k: Key)
    ensures TotalOf(AddItem(lines, it), k) == TotalOf(lines, k) + (if k == it.key then it.amount else 0)
  {
    if lines != [] && lines[0].key != it.key {
      AddItemTotal(lines[1..], it, k);
      assert AddItem(lines, it)[1..] == AddItem(lines[1..], it);
    }
  }

  lemma {:induction false} AddItemSum(lines: seq<Line>, it: Item)
    ensures SumTotals(AddItem(lines, it)) == SumTotals(lines) + it.amount
  {
    if lines != [] && lines[0].key != it.key {
      AddItemSum(lines[1..], it);
      assert AddItem(lines, it)[1..] == AddItem(lines[1..], it);
    }
  }

  /** With unique keys, a line's total is the total recorded for its key. */
  lemma {:induction false} TotalOfMember(lines: seq<Line>, l: Line)
    requires KeysUnique(lines) && l in lines
    ensures TotalOf(lines, l.key) == l.total
  {
    if lines[0] != l {
      assert l in lines[1..];
      TotalOfMember(lines[1..], l);
    }
  }

  lemma ItemKeysSnoc(items: seq<Item>)
    requires items != []
    ensures ItemKeys(items) == ItemKeys(items[..|items| - 1]) + {items[|items| - 1].key}
  {
    var init := items[..|items| - 1];
    assert items == init + [items[|items| - 1]];
    assert forall it :: it in items <==> it in init || it == items[|items| - 1];
  }

  /** The grouping is correct: unique keys, exactly the keys of the rows, each key's total is
      the sum of its rows, and nothing is lost overall. */
  lemma {:induction false} GroupCorrect(items: seq<Item>)
    ensures KeysUnique(Group(items))
    ensures LineKeys(Group(items)) == ItemKeys(items)
    ensures forall k :: TotalOf(Group(items), k) == SumFor(items, k)
    ensures SumTotals(Group(items)) == SumAll(items)
  {
    if items != [] {
      var init := items[..|items| - 1];
      var last := items[|items| - 1];
      GroupCorrect(init);
      AddItemKeys(Group(init), last);
      AddItemSum(Group(init), last);
      forall k ensures TotalOf(Group(items), k) == SumFor(items, k) {
        AddItemTotal(Group(init), last, k);
      }
      ItemKeysSnoc(items);
    }
  }

  // ---------------------------------------------------------------------------------------
  // ORDER BY -total

  /** Insert a line before the first line with a smaller total. */
  function Insert(l: Line, sorted: seq<Line>): (r: seq<Line>)
    ensures |r| == |sorted| + 1
    ensures r[0] == l || (sorted != [] && r[0] == sorted[0])
  {
    if sorted == [] || l.total >= sorted[0].total then [l] + sorted
    else [sorted[0]] + Insert(l, sorted[1..])
  }

  function SortByTotal(lines: seq<Line>): seq<Line> {
    if lines == [] then [] else Insert(lines[0], SortByTotal(lines[1..]))
  }

  lemma {:induction false} InsertOrdered(l: Line, s: seq<Line>)
    requires NonIncreasing(s)
    ensures NonIncreasing(Insert(l, s))
  {
    if s != [] && l.total < s[0].total {
      InsertOrdered(l, s[1..]);
      assert Insert(l, s)[1..] == Insert(l, s[1..]);
    }
  }

  lemma {:induction false} InsertPermutes(l: Line, s: seq<Line>)
    ensures multiset(Insert(l, s)) == multiset(s) + multiset{l}
    ensures SumTotals(Insert(l, s)) == l.total + SumTotals(s)
    ensures LineKeys(Insert(l, s)) == LineKeys(s) + {l.key}
  {
    if s == [] || l.total >= s[0].total {
      LineKeysCons(l, s);
    } else {
      var t := s[1..];
      InsertPermutes(l, t);
      assert s == [s[0]] + t;
      LineKeysCons(s[0], t);
      LineKeysCons(s[0], Insert(l, t));
    }
  }

  lemma {:induction false} InsertUnique(l: Line, s: seq<Line>)
    requires KeysUnique(s) && l.key !in LineKeys(s)
    ensures KeysUnique(Insert(l, s))
    ensures forall k :: TotalOf(Insert(l, s), k) == if k == l.key then l.total else TotalOf(s, k)
  {
    if s == [] || l.total >= s[0].total {
      assert Insert(l, s)[1..] == s;
    } else {
      var t := s[1..];
      assert s == [s[0]] + t;
      LineKeysCons(s[0], t);
      InsertUnique(l, t);
      InsertPermutes(l, t);
      assert Insert(l, s)[1..] == Insert(l, t);
    }
  }

  /** The sort is a permutation: the same lines, hence the same keys and the same sum. */
  lemma {:induction false} SortPermutes(lines: seq<Line>)
    ensures multiset(SortByTotal(lines)) == multiset(lines)
    ensures SumTotals(SortByTotal(lines)) == SumTotals(lines)
    ensures LineKeys(SortByTotal(lines)) == LineKeys(lines)
  {
    if lines != [] {
      var t := lines[1..];
      SortPermutes(t);
      InsertPermutes(lines[0], SortByTotal(t));
      assert lines == [lines[0]] + t;
      LineKeysCons(lines[0], t);
    }
  }

  /** The sort orders by descending total. */
  lemma {:induction false} SortOrders(lines: seq<Line>)
    ensures NonIncreasing(SortByTotal(lines))
  {
    if lines != [] {
      SortOrders(lines[1..]);
      InsertOrdered(lines[0], SortByTotal(lines[1..]));
    }
  }

  /** Sorting lines with unique keys keeps the keys unique and each key's total. */
  lemma {:induction false} SortKeepsTotals(lines: seq<Line>)
    requires KeysUnique(lines)
    ensures KeysUnique(SortByTotal(lines))
    ensures forall k :: TotalOf(SortByTotal(lines), k) == TotalOf(lines, k)
  {
    if lines != [] {
      var t := lines[1..];
      SortKeepsTotals(t);
      SortPermutes(t);
      InsertUnique(lines[0], SortByTotal(t));
    }
  }

  // ---------------------------------------------------------------------------------------
  // The query and its rendering

  /** The annotated, ordered queryset of download_shopping_cart. */
  function Aggregate(items: seq<Item>): (lines: seq<Line>)
    ensures IsShoppingList(items, lines)
    ensures SumTotals(lines) == SumAll(items)
    ensures items == [] ==> lines == []
  {
    var g := Group(items);
    GroupCorrect(items);
    SortPermutes(g);
    SortOrders(g);
    SortKeepsTotals(g);
    var s := SortByTotal(g);
    KeysUniqueIsDistinct(s);
    NonIncreasingIsOrdered(s);
    forall l | l in s ensures l.total == SumFor(items, l.key) {
      TotalOfMember(s, l);
    }
    s
  }

  /** Two lists that both meet the specification hold the same lines: the result is
      determined up to the order of groups with equal totals. */
  lemma ShoppingListDeterminedUpToTies(items: seq<Item>, a: seq<Line>, b: seq<Line>)
    requires IsShoppingList(items, a) && IsShoppingList(items, b)
    ensures forall l :: l in a <==> l in b
  {
    forall l | l in a ensures l in b {
      assert l.key in LineKeys(b);
      var m :| m in b && m.key == l.key;
    }
    forall l | l in b ensures l in a {
      assert l.key in LineKeys(a);
      var m :| m in a && m.key == l.key;
    }
  }

  /** `f"{name} ({units}) - {total}"`. */
  function FormatLine(l: Line): (s: string)
    ensures Text.IsPrefix(l.key.name + " (" + l.key.unit + ") - ", s)
    ensures var d := s[|l.key.name| + |l.key.unit| + 6..];
            Text.AllDigits(d) && Text.DecimalValue(d) == l.total
            && |d| >= 1 && (d[0] == '0' <==> l.total == 0)
  {
    var d := Text.NatToDecimal(l.total);
    Text.DecimalRoundTrip(l.total);
    var s := l.key.name + " (" + l.key.unit + ") - " + d;
    assert s[|l.key.name| + |l.key.unit| + 6..] == d;
    s
  }

  function FormatLines(lines: seq<Line>): (r: seq<string>)
    ensures |r| == |lines| && forall i :: 0 <= i < |lines| ==> r[i] == FormatLine(lines[i])
  {
    seq(|lines|, i requires 0 <= i < |lines| => FormatLine(lines[i]))
  }

  /** `'\n'.join(...)` over the formatted lines. */
  function Render(lines: seq<Line>): string {
    Text.Join(FormatLines(lines), "\n")
  }

  /** The rendered text is one formatted line per group, separated by single newlines: the
      text of a list is the text of any split of it joined by '\n'. An empty list gives "". */
  lemma RenderSplit(a: seq<Line>, b: seq<Line>)
    ensures Render([]) == ""
    ensures |a| == 1 ==> Render(a) == FormatLine(a[0])
    ensures |a| > 0 && |b| > 0 ==> Render(a + b) == Render(a) + "\n" + Render(b)
  {
    if |a| > 0 && |b| > 0 {
      assert FormatLines(a + b) == FormatLines(a) + FormatLines(b);
      Text.JoinAppend(FormatLines(a), FormatLines(b), "\n");
    }
  }

  /** download_shopping_cart's response body for the cart's rows: the rendering of a list
      that meets the specification. */
  function DownloadText(items: seq<Item>): (text: string)
    ensures exists lines :: IsShoppingList(items, lines) && text == Render(lines)
    ensures items == [] ==> text == ""
  {
    var lines := Aggregate(items);
    assert IsShoppingList(items, lines);
    Render(lines)
  }

  /** The example of a cart holding recipe A (200 g flour, 2 eggs) and recipe B (300 g flour,
      1 egg): flour 500 g first, then eggs 3. */
  lemma TwoRecipeExample()
    ensures var flour := Key("flour", "g");
            var eggs := Key("eggs", "pcs");
            Aggregate([Item(flour, 200), Item(eggs, 2), Item(flour, 300), Item(eggs, 1)])
              == [Line(flour, 500), Line(eggs, 3)]
  {
    var flour := Key("flour", "g");
    var eggs := Key("eggs", "pcs");
    var items := [Item(flour, 200), Item(eggs, 2), Item(flour, 300), Item(eggs, 1)];
    var g1 := [Line(flour, 200)];
    var g2 := [Line(flour, 200), Line(eggs, 2)];
    var g3 := [Line(flour, 500), Line(eggs, 2)];
    assert items[..3] == [Item(flour, 200), Item(eggs, 2), Item(flour, 300)];
    assert items[..3][..2] == [Item(flour, 200), Item(eggs, 2)];
    assert items[..3][..2][..1] == [Item(flour, 200)];
    assert items[..3][..2][..1][..0] == [];
    assert Group([Item(flour, 200)]) == g1;
    assert g1[1..] == [];
    assert AddItem(g1, Item(eggs, 2)) == g2;
    assert Group(items[..3][..2]) == g2;
    assert g2[1..] == [Line(eggs, 2)];
    assert AddItem(g2, Item(flour, 300)) == g3;
    assert Group(items[..3]) == g3;
    assert g3[1..] == [Line(eggs, 2)] && [Line(eggs, 2)][1..] == [];
    assert AddItem(g3, Item(eggs, 1)) == [Line(flour, 500), Line(eggs, 3)];
    assert Group(items) == [Line(flour, 500), Line(eggs, 3)];
    assert SortByTotal([Line(eggs, 3)]) == [Line(eggs, 3)];
  }
}

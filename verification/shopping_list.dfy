/** `download_shopping_cart`: the join rows of every recipe in the user's cart, grouped by
    ingredient (name, measurement unit), amounts summed per group, one text line per group.
    The query sets no order. The model's fold visits the items from last to first and
    appends each new key at the end, so its groups come in the reverse order of each key's
    last appearance; every property below is stated for any order, and
    `ShoppingListsArePermutations` shows the groups are determined up to order. */
module ShoppingList {
  import Wrappers
  import opened PyText
  import opened Dish

  /** The grouping key: two ingredients with different ids but the same name and unit
      land in the same group. */
  datatype Key = Key(name: string, unit: string)

  /** One join row of a cart recipe, joined to its ingredient. */
  datatype Item = Item(key: Key, amount: int)

  /** One group of the result, with its summed amount. */
  datatype Line = Line(key: Key, total: int)

  /** A row the query selects for `user`: its recipe is in the user's cart and its
      ingredient joins. */
  predicate Selected(cart: set<(UserId, RecipeId)>, ingredients: map<IngredientId, Ingredient>, user: UserId, row: RecipeIngredient) {
    (user, row.recipe) in cart && row.ingredient in ingredients
  }

  /** The group an ingredient's rows fall into. */
  function KeyOf(g: Ingredient): Key {
    Key(g.name, g.measurementUnit)
  }

  /** The selected rows of `rows`, joined to their ingredients, in row order. */
  function Collect(cart: set<(UserId, RecipeId)>, ingredients: map<IngredientId, Ingredient>, user: UserId, rows: seq<RecipeIngredient>): (r: seq<Item>)
    ensures |r| <= |rows|
    ensures r == [] <==> forall row :: row in rows ==> !Selected(cart, ingredients, user, row)
    ensures (forall row :: row in rows ==> row.amount >= MinAmount) ==>
      forall it :: it in r ==> it.amount >= MinAmount
  {
    if rows == [] then []
    else
      var rest := Collect(cart, ingredients, user, rows[1..]);
      assert forall row :: row in rows[1..] ==> row in rows;
      var row := rows[0];
      if Selected(cart, ingredients, user, row) then
        [Item(KeyOf(ingredients[row.ingredient]), row.amount)] + rest
      else
        assert forall x :: x in rows ==> x == row || x in rows[1..];
        rest
  }

  /** The quantity the download owes key `k`, read straight off the join rows: the sum of
      the amounts of the selected rows whose ingredient has that key. */
  function RowTotal(cart: set<(UserId, RecipeId)>, ingredients: map<IngredientId, Ingredient>, user: UserId, rows: seq<RecipeIngredient>, k: Key): int {
    if rows == [] then 0
    else
      var row := rows[0];
      (if Selected(cart, ingredients, user, row) && KeyOf(ingredients[row.ingredient]) == k then row.amount else 0)
        + RowTotal(cart, ingredients, user, rows[1..], k)
  }

  /** The sum of the amounts of all selected rows. */
  function RowSum(cart: set<(UserId, RecipeId)>, ingredients: map<IngredientId, Ingredient>, user: UserId, rows: seq<RecipeIngredient>): int {
    if rows == [] then 0
    else
      (if Selected(cart, ingredients, user, rows[0]) then rows[0].amount else 0)
        + RowSum(cart, ingredients, user, rows[1..])
  }

  /** The keys of the ingredients of the selected rows. */
  function RowKeys(cart: set<(UserId, RecipeId)>, ingredients: map<IngredientId, Ingredient>, user: UserId, rows: seq<RecipeIngredient>): set<Key> {
    set row | row in rows && Selected(cart, ingredients, user, row) :: KeyOf(ingredients[row.ingredient])
  }

  /** The rows the download reads. */
  function CartItems(s: Store, user: UserId): seq<Item> {
    Collect(s.shoppingCart, s.ingredients, user, s.recipeIngredients)
  }

  /** The sum of the amounts of the items carrying `k`. */
  function Total(items: seq<Item>, k: Key): int {
    if items == [] then 0
    else (if items[0].key == k then items[0].amount else 0) + Total(items[1..], k)
  }

  function SumAmounts(items: seq<Item>): int {
    if items == [] then 0 else items[0].amount + SumAmounts(items[1..])
  }

  function SumTotals(lines: seq<Line>): int {
    if lines == [] then 0 else lines[0].total + SumTotals(lines[1..])
  }

  function ItemKeys(items: seq<Item>): set<Key> {
    set it | it in items :: it.key
  }

  function LineKeys(lines: seq<Line>): set<Key> {
    set l | l in lines :: l.key
  }

  predicate KeysDistinct(lines: seq<Line>) {
    forall i, j :: 0 <= i < j < |lines| ==> lines[i].key != lines[j].key
  }

  /** What the grouped query returns, order aside: one line per key that occurs among the
      items and no other, each carrying the sum of that key's amounts. */
  predicate IsShoppingList(items: seq<Item>, lines: seq<Line>) {
    && KeysDistinct(lines)
    && LineKeys(lines) == ItemKeys(items)
    && forall l :: l in lines ==> l.total == Total(items, l.key)
  }

  /** Collecting keeps every key's sum: the items of `k` add up to the rows of `k`. */
  lemma {:induction false} CollectTotal(cart: set<(UserId, RecipeId)>, ingredients: map<IngredientId, Ingredient>, user: UserId, rows: seq<RecipeIngredient>, k: Key)
    ensures Total(Collect(cart, ingredients, user, rows), k) == RowTotal(cart, ingredients, user, rows, k)
  {
    if rows != [] {
      CollectTotal(cart, ingredients, user, rows[1..], k);
      var rest := Collect(cart, ingredients, user, rows[1..]);
      if Selected(cart, ingredients, user, rows[0]) {
        var it := Item(KeyOf(ingredients[rows[0].ingredient]), rows[0].amount);
        assert ([it] + rest)[1..] == rest;
      }
    }
  }

  /** Collecting keeps the overall sum. */
  lemma {:induction false} CollectSum(cart: set<(UserId, RecipeId)>, ingredients: map<IngredientId, Ingredient>, user: UserId, rows: seq<RecipeIngredient>)
    ensures SumAmounts(Collect(cart, ingredients, user, rows)) == RowSum(cart, ingredients, user, rows)
  {
    if rows != [] {
      CollectSum(cart, ingredients, user, rows[1..]);
      var rest := Collect(cart, ingredients, user, rows[1..]);
      if Selected(cart, ingredients, user, rows[0]) {
        var it := Item(KeyOf(ingredients[rows[0].ingredient]), rows[0].amount);
        assert ([it] + rest)[1..] == rest;
      }
    }
  }

  /** The items carry exactly the keys of the selected rows. */
  lemma {:induction false} CollectKeys(cart: set<(UserId, RecipeId)>, ingredients: map<IngredientId, Ingredient>, user: UserId, rows: seq<RecipeIngredient>)
    ensures ItemKeys(Collect(cart, ingredients, user, rows)) == RowKeys(cart, ingredients, user, rows)
  {
    if rows != [] {
      var tail := rows[1..];
      CollectKeys(cart, ingredients, user, tail);
      var rest := Collect(cart, ingredients, user, tail);
      assert forall row :: row in rows <==> row == rows[0] || row in tail by {
        assert rows == [rows[0]] + tail;
      }
      if Selected(cart, ingredients, user, rows[0]) {
        var it := Item(KeyOf(ingredients[rows[0].ingredient]), rows[0].amount);
        assert forall x :: x in [it] + rest <==> x == it || x in rest;
        assert ItemKeys([it] + rest) == {it.key} + ItemKeys(rest);
        assert RowKeys(cart, ingredients, user, rows) == {it.key} + RowKeys(cart, ingredients, user, tail);
      } else {
        assert RowKeys(cart, ingredients, user, rows) == RowKeys(cart, ingredients, user, tail);
      }
    }
  }

  /** The total already recorded for `k` in `lines`, or 0 when there is none. */
  function TotalOf(lines: seq<Line>, k: Key): int {
    if lines == [] then 0 else if lines[0].key == k then lines[0].total else TotalOf(lines[1..], k)
  }

  /** Add one item to the groups: into the group of its key, or as a new group at the end. */
  function Insert(lines: seq<Line>, it: Item): (r: seq<Line>)
    requires KeysDistinct(lines)
    ensures KeysDistinct(r)
    ensures LineKeys(r) == LineKeys(lines) + {it.key}
    ensures forall l :: l in r && l.key == it.key ==> l.total == TotalOf(lines, it.key) + it.amount
    ensures forall l :: l in r && l.key != it.key ==> l in lines
    ensures SumTotals(r) == SumTotals(lines) + it.amount
  {
    if lines == [] then [Line(it.key, it.amount)]
    else
      var head := lines[0];
      var tail := lines[1..];
      DistinctSplit(lines);
      if head.key == it.key then
        var merged := Line(it.key, head.total + it.amount);
        DistinctJoin(merged, tail);
        [merged] + tail
      else
        var rest := Insert(tail, it);
        LineKeysCons(head, rest);
        DistinctJoin(head, rest);
        [head] + rest
  }

  lemma LineKeysCons(x: Line, rest: seq<Line>)
    ensures LineKeys([x] + rest) == {x.key} + LineKeys(rest)
    ensures forall l :: l in [x] + rest <==> l == x || l in rest
  {
  }

  /** The head of a list with distinct keys shares its key with nothing in the tail. */
  lemma DistinctSplit(lines: seq<Line>)
    requires KeysDistinct(lines) && lines != []
    ensures KeysDistinct(lines[1..])
    ensures lines[0].key !in LineKeys(lines[1..])
    ensures lines == [lines[0]] + lines[1..]
    ensures LineKeys(lines) == {lines[0].key} + LineKeys(lines[1..])
  {
  }

  lemma DistinctJoin(x: Line, rest: seq<Line>)
    requires KeysDistinct(rest) && x.key !in LineKeys(rest)
    ensures KeysDistinct([x] + rest)
  {
  }

  /** The grouped sum, folding the items one at a time into the groups. */
  function Group(items: seq<Item>): (r: seq<Line>)
    ensures IsShoppingList(items, r)
  {
    if items == [] then []
    else
      var tail := items[1..];
      var g := Group(tail);
      var it := items[0];
      var r := Insert(g, it);
      assert items == [it] + tail;
      assert ItemKeys(items) == {it.key} + ItemKeys(tail);
      forall l | l in r
        ensures l.total == Total(items, l.key)
      {
        if l.key == it.key {
          TotalOfMatches(tail, g, it.key);
        } else {
          assert l in g;
        }
      }
      r
  }

  /** In a shopping list the recorded total of a key is the sum of its amounts, also for
      a key that does not occur. */
  lemma {:induction false} TotalOfMatches(items: seq<Item>, lines: seq<Line>, k: Key)
    requires IsShoppingList(items, lines)
    ensures TotalOf(lines, k) == Total(items, k)
  {
    if k in LineKeys(lines) {
      FirstMatch(lines, k);
    } else {
      TotalOfAbsent(lines, k);
      TotalAbsent(items, k);
    }
  }

  lemma {:induction false} FirstMatch(lines: seq<Line>, k: Key)
    requires k in LineKeys(lines)
    ensures exists l :: l in lines && l.key == k && TotalOf(lines, k) == l.total
  {
    if lines[0].key != k {
      assert lines == [lines[0]] + lines[1..];
      assert k in LineKeys(lines[1..]);
      FirstMatch(lines[1..], k);
    } else {
      assert lines[0] in lines;
    }
  }

  lemma {:induction false} TotalOfAbsent(lines: seq<Line>, k: Key)
    requires k !in LineKeys(lines)
    ensures TotalOf(lines, k) == 0
  {
    if lines != [] {
      assert lines[0] in lines;
      assert LineKeys(lines[1..]) <= LineKeys(lines) by {
        forall x | x in LineKeys(lines[1..])
          ensures x in LineKeys(lines)
        {
          var l :| l in lines[1..] && l.key == x;
          assert l in lines;
        }
      }
      TotalOfAbsent(lines[1..], k);
    }
  }

  /** A key that occurs in no item sums to nothing. */
  lemma {:induction false} TotalAbsent(items: seq<Item>, k: Key)
    requires k !in ItemKeys(items)
    ensures Total(items, k) == 0
  {
    if items != [] {
      assert items[0] in items;
      assert ItemKeys(items[1..]) <= ItemKeys(items) by {
        forall x | x in ItemKeys(items[1..])
          ensures x in ItemKeys(items)
        {
          var it :| it in items[1..] && it.key == x;
          assert it in items;
        }
      }
      TotalAbsent(items[1..], k);
    }
  }

  /** Grouping neither creates nor loses quantity: the line totals add up to the sum of
      all selected amounts. */
  lemma {:induction false} GroupConservesAmount(items: seq<Item>)
    ensures SumTotals(Group(items)) == SumAmounts(items)
  {
    if items != [] {
      GroupConservesAmount(items[1..]);
    }
  }

  /** With every amount at least 1, every key that occurs sums to at least 1. */
  lemma {:induction false} TotalPositive(items: seq<Item>, k: Key)
    requires forall it :: it in items ==> it.amount >= MinAmount
    requires k in ItemKeys(items)
    ensures Total(items, k) >= MinAmount
  {
    assert items[0] in items;
    if items[0].key != k {
      var it :| it in items && it.key == k;
      assert it in items[1..];
      assert forall x :: x in items[1..] ==> x in items;
      TotalPositive(items[1..], k);
    } else {
      assert forall x :: x in items[1..] ==> x in items;
      TotalNonNegative(items[1..], k);
    }
  }

  lemma {:induction false} TotalNonNegative(items: seq<Item>, k: Key)
    requires forall it :: it in items ==> it.amount >= 0
    ensures Total(items, k) >= 0
  {
    if items != [] {
      assert items[0] in items;
      assert forall x :: x in items[1..] ==> x in items;
      TotalNonNegative(items[1..], k);
    }
  }

  /** A list with distinct keys holds each of its lines exactly once. */
  lemma {:induction false} DistinctOnce(lines: seq<Line>, x: Line)
    requires KeysDistinct(lines)
    ensures multiset(lines)[x] == if x in lines then 1 else 0
  {
    if lines != [] {
      var tail := lines[1..];
      DistinctSplit(lines);
      DistinctOnce(tail, x);
    }
  }

  /** Any two results that meet the grouped query's description hold the same lines,
      each once: they differ at most in order. */
  lemma ShoppingListsArePermutations(items: seq<Item>, a: seq<Line>, b: seq<Line>)
    requires IsShoppingList(items, a) && IsShoppingList(items, b)
    ensures multiset(a) == multiset(b)
  {
    forall x | x in a
      ensures x in b
    {
      assert x.key in LineKeys(b);
      var y :| y in b && y.key == x.key;
    }
    forall x | x in b
      ensures x in a
    {
      assert x.key in LineKeys(a);
      var y :| y in a && y.key == x.key;
    }
    forall x
      ensures multiset(a)[x] == multiset(b)[x]
    {
      DistinctOnce(a, x);
      DistinctOnce(b, x);
    }
  }

  /** One line of the document: `"{name} ({unit}) - {amount}\n"`. */
  function RenderLine(l: Line): (text: string)
    ensures |text| > 0 && text[|text| - 1] == '\n'
  {
    l.key.name + " (" + l.key.unit + ") - " + IntToString(l.total) + "\n"
  }

  /** The amount a line shows reads back as the group's total. */
  lemma {:induction false} RenderedAmountReadsBack(l: Line)
    requires l.total >= 0
    ensures ReadAmount(RenderLine(l)) == Wrappers.Success(l.total)
  {
    var prefix := l.key.name + " (" + l.key.unit + ") -";
    var number := IntToString(l.total);
    var text := RenderLine(l);
    assert text == prefix + [' '] + number + "\n";
    assert text[..|text| - 1] == prefix + [' '] + number;
    NatToStringRoundTrip(l.total);
    LastWordAfterSpace(prefix, number);
  }

  /** The characters after the last space of `s`. */
  function LastWord(s: string): (w: string)
    ensures |w| <= |s| && ' ' !in w
  {
    if s == [] || s[|s| - 1] == ' ' then [] else LastWord(s[..|s| - 1]) + [s[|s| - 1]]
  }

  /** The amount of a rendered line, read back from the word before the line break. */
  function ReadAmount(line: string): Wrappers.Result<nat, ValueError> {
    if line == [] then Wrappers.Failure(ValueError) else PyInt(LastWord(line[..|line| - 1]))
  }

  lemma {:induction false} LastWordAfterSpace(prefix: string, w: string)
    requires forall i :: 0 <= i < |w| ==> w[i] != ' '
    ensures LastWord(prefix + [' '] + w) == w
  {
    var s := prefix + [' '] + w;
    if w != [] {
      var w' := w[..|w| - 1];
      assert s[..|s| - 1] == prefix + [' '] + w';
      LastWordAfterSpace(prefix, w');
      assert w == w' + [w[|w| - 1]];
    } else {
      assert s[|s| - 1] == ' ';
    }
  }

  /** The lines written one after another. */
  function Render(lines: seq<Line>): (text: string)
    ensures text == [] <==> lines == []
    ensures lines != [] ==> text[|text| - 1] == '\n'
  {
    if lines == [] then "" else RenderLine(lines[0]) + Render(lines[1..])
  }

  /** The groups the download must list, described from the join rows alone: one line per
      key of a selected row, with distinct keys, each carrying that key's row total. */
  predicate ListsCart(s: Store, user: UserId, lines: seq<Line>) {
    var cart, ings, rows := s.shoppingCart, s.ingredients, s.recipeIngredients;
    && KeysDistinct(lines)
    && LineKeys(lines) == RowKeys(cart, ings, user, rows)
    && forall l :: l in lines ==> l.total == RowTotal(cart, ings, user, rows, l.key)
  }

  /** Grouping the collected items is the same thing as grouping the cart's rows. */
  lemma CartListIsShoppingList(s: Store, user: UserId, lines: seq<Line>)
    ensures IsShoppingList(CartItems(s, user), lines) <==> ListsCart(s, user, lines)
  {
    var cart, ings, rows := s.shoppingCart, s.ingredients, s.recipeIngredients;
    CollectKeys(cart, ings, user, rows);
    forall k {
      CollectTotal(cart, ings, user, rows, k);
    }
  }

  /** The body of the downloaded file: some grouping of the cart's rows, written out. */
  function Download(s: Store, user: UserId): (body: string)
    ensures exists lines :: ListsCart(s, user, lines) && body == Render(lines)
    ensures body == "" <==> forall row :: row in s.recipeIngredients ==> !Selected(s.shoppingCart, s.ingredients, user, row)
    ensures (forall rid :: (user, rid) !in s.shoppingCart) ==> body == ""
  {
    var lines := Group(CartItems(s, user));
    CartListIsShoppingList(s, user, lines);
    Render(lines)
  }

  /** Across all groups the download lists exactly the quantity the selected rows hold. */
  lemma DownloadConservesAmount(s: Store, user: UserId)
    ensures SumTotals(Group(CartItems(s, user))) == RowSum(s.shoppingCart, s.ingredients, user, s.recipeIngredients)
  {
    GroupConservesAmount(CartItems(s, user));
    CollectSum(s.shoppingCart, s.ingredients, user, s.recipeIngredients);
  }

  /** In a valid store every amount in the download is at least 1. */
  lemma DownloadTotalsPositive(s: Store, user: UserId)
    requires Valid(s)
    ensures forall l :: l in Group(CartItems(s, user)) ==> l.total >= MinAmount
  {
    var items := CartItems(s, user);
    assert forall row :: row in s.recipeIngredients ==> row.amount >= MinAmount by {
      forall row | row in s.recipeIngredients
        ensures row.amount >= MinAmount
      {
        assert ValidRow(s, row);
      }
    }
    forall l | l in Group(items)
      ensures l.total >= MinAmount
    {
      TotalPositive(items, l.key);
    }
  }

  /** The download of `user` reads only `user`'s own cart pairs. */
  lemma {:induction false} CollectReadsOwnCart(c1: set<(UserId, RecipeId)>, c2: set<(UserId, RecipeId)>, ingredients: map<IngredientId, Ingredient>, user: UserId, rows: seq<RecipeIngredient>)
    requires forall rid :: (user, rid) in c1 <==> (user, rid) in c2
    ensures Collect(c1, ingredients, user, rows) == Collect(c2, ingredients, user, rows)
  {
    if rows != [] {
      CollectReadsOwnCart(c1, c2, ingredients, user, rows[1..]);
      assert Selected(c1, ingredients, user, rows[0]) == Selected(c2, ingredients, user, rows[0]);
    }
  }

  /** Two ingredient ids both named "Salt" in grams, 5 of one in a cart recipe and 3 of
      the other in a second cart recipe. */
  const SaltExample: Store := Store(
    users := {1},
    tags := [],
    ingredients := map[1 := Ingredient("Salt", "g"), 2 := Ingredient("Salt", "g")],
    recipes := [Recipe(10, 1, "A", "a.png", "a", 5), Recipe(11, 1, "B", "b.png", "b", 7)],
    recipeIngredients := [RecipeIngredient(10, 1, 5), RecipeIngredient(11, 2, 3)],
    favorites := {},
    shoppingCart := {(1, 10), (1, 11)},
    follows := {})

  /** The example is a valid store: nothing forbids two ingredients sharing name and unit. */
  lemma SaltExampleValid()
    ensures Valid(SaltExample)
  {
  }

  /** The two ingredients merge into the single line "Salt (g) - 8". */
  lemma SaltExampleMerged()
    ensures Download(SaltExample, 1) == "Salt (g) - 8\n"
  {
    var s := SaltExample;
    var salt := Key("Salt", "g");
    var rows := s.recipeIngredients;
    var ings := s.ingredients;
    assert Collect(s.shoppingCart, ings, 1, rows[1..][1..]) == [];
    assert Collect(s.shoppingCart, ings, 1, rows[1..]) == [Item(salt, 3)];
    assert CartItems(s, 1) == [Item(salt, 5), Item(salt, 3)];
    assert Group([Item(salt, 3)]) == [Line(salt, 3)];
    assert Group(CartItems(s, 1)) == [Line(salt, 8)];
    assert IntToString(8) == "8";
    assert RenderLine(Line(salt, 8)) == "Salt (g) - 8\n";
    assert Render([Line(salt, 8)]) == RenderLine(Line(salt, 8)) + Render([]);
  }
}

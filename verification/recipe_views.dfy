/** `RecipeViewSet.favorite_shoppingcart_logic` and the two actions built on it: adding a
    recipe to, or removing it from, the requesting user's favorites or shopping cart. */
module RecipeViews {
  import opened Wrappers
  import opened Dish
  import opened UserSerializers
  import opened Api
  import ShoppingList

  /** The relation model the logic is handed. */
  datatype Relation = Favorite | ShoppingCart

  function Pairs(s: Store, rel: Relation): set<(UserId, RecipeId)> {
    match rel
    case Favorite => s.favorites
    case ShoppingCart => s.shoppingCart
  }

  /** The store with one relation replaced and everything else as it was. */
  function WithPairs(s: Store, rel: Relation, pairs: set<(UserId, RecipeId)>): (r: Store)
    ensures Pairs(r, rel) == pairs
  {
    match rel
    case Favorite => s.(favorites := pairs)
    case ShoppingCart => s.(shoppingCart := pairs)
  }

  /** POST adds (user, pk) and replies with the recipe's summary; DELETE removes it.
      POST looks the recipe up directly and fails with `NoSuchRecipe`; DELETE goes through
      `get_object` and fails with `NotFound`. Failures leave the store untouched. */
  function FavoriteShoppingCartLogic(s: Store, user: UserId, pk: RecipeId, m: ToggleMethod, rel: Relation): (r: Step<RecipeSummary>)
    ensures r.reply.Failure? ==> r.store == s
    ensures pk !in RecipeIds(s.recipes) ==>
      r.reply == Failure(if m == Post then NoSuchRecipe else NotFound)
    ensures pk in RecipeIds(s.recipes) && m == Post && (user, pk) in Pairs(s, rel) ==>
      r.reply == Failure(AlreadyAdded)
    ensures pk in RecipeIds(s.recipes) && m == Delete && (user, pk) !in Pairs(s, rel) ==>
      r.reply == Failure(NotYetAdded)
    ensures r.reply.Success? <==>
      pk in RecipeIds(s.recipes) && ((user, pk) in Pairs(s, rel) <==> m == Delete)
    ensures r.reply.Success? && m == Post ==>
      && r.store == WithPairs(s, rel, Pairs(s, rel) + {(user, pk)})
      && exists x :: x in s.recipes && x.id == pk && r.reply.value == Created(Summary(x))
    ensures r.reply.Success? && m == Delete ==>
      r.store == WithPairs(s, rel, Pairs(s, rel) - {(user, pk)}) && r.reply.value == NoContent
  {
    match FindRecipe(s.recipes, pk)
    case None => Step(s, Failure(if m == Post then NoSuchRecipe else NotFound))
    case Some(recipe) =>
      var pairs := Pairs(s, rel);
      if m == Post then
        if (user, pk) in pairs then Step(s, Failure(AlreadyAdded))
        else Step(WithPairs(s, rel, pairs + {(user, pk)}), Success(Created(Summary(recipe))))
      else
        assert m == Delete;
        if (user, pk) !in pairs then Step(s, Failure(NotYetAdded))
        else Step(WithPairs(s, rel, pairs - {(user, pk)}), Success(NoContent))
  }

  /** `favorite`: the logic on the Favorite relation. */
  function FavoriteAction(s: Store, user: UserId, pk: RecipeId, m: ToggleMethod): (r: Step<RecipeSummary>)
    ensures r.store.shoppingCart == s.shoppingCart && r.store.follows == s.follows
    ensures r.store.recipes == s.recipes && r.store.recipeIngredients == s.recipeIngredients
    ensures r.reply.Success? ==> ((user, pk) in r.store.favorites <==> m == Post)
  {
    FavoriteShoppingCartLogic(s, user, pk, m, Favorite)
  }

  /** `shopping_cart`: the logic on the ShoppingCart relation. */
  function ShoppingCartAction(s: Store, user: UserId, pk: RecipeId, m: ToggleMethod): (r: Step<RecipeSummary>)
    ensures r.store.favorites == s.favorites && r.store.follows == s.follows
    ensures r.store.recipes == s.recipes && r.store.recipeIngredients == s.recipeIngredients
    ensures r.reply.Success? ==> ((user, pk) in r.store.shoppingCart <==> m == Post)
  {
    FavoriteShoppingCartLogic(s, user, pk, m, ShoppingCart)
  }

  /** Adding twice: the first POST succeeds, the second is refused and changes nothing. */
  lemma SecondAddConflicts(s: Store, user: UserId, pk: RecipeId, rel: Relation)
    requires FavoriteShoppingCartLogic(s, user, pk, Post, rel).reply.Success?
    ensures var s1 := FavoriteShoppingCartLogic(s, user, pk, Post, rel).store;
      FavoriteShoppingCartLogic(s1, user, pk, Post, rel) == Step(s1, Failure(AlreadyAdded))
  {
  }

  /** A successful add followed by a delete gives back the store it started from. */
  lemma AddThenRemoveRestores(s: Store, user: UserId, pk: RecipeId, rel: Relation)
    requires FavoriteShoppingCartLogic(s, user, pk, Post, rel).reply.Success?
    ensures var s1 := FavoriteShoppingCartLogic(s, user, pk, Post, rel).store;
      FavoriteShoppingCartLogic(s1, user, pk, Delete, rel) == Step(s, Success(NoContent))
  {
  }

  /** A successful delete followed by a second delete is refused with `NotYetAdded`. */
  lemma SecondRemoveConflicts(s: Store, user: UserId, pk: RecipeId, rel: Relation)
    requires FavoriteShoppingCartLogic(s, user, pk, Delete, rel).reply.Success?
    ensures var s1 := FavoriteShoppingCartLogic(s, user, pk, Delete, rel).store;
      FavoriteShoppingCartLogic(s1, user, pk, Delete, rel) == Step(s1, Failure(NotYetAdded))
  {
  }

  /** The toggles touch only a pair relation, so the store invariants survive them. */
  lemma ToggleKeepsValid(s: Store, user: UserId, pk: RecipeId, m: ToggleMethod, rel: Relation)
    requires Valid(s)
    ensures Valid(FavoriteShoppingCartLogic(s, user, pk, m, rel).store)
  {
  }

  /** Favoriting never changes anybody's shopping list. */
  lemma FavoriteLeavesDownloadUnchanged(s: Store, user: UserId, pk: RecipeId, m: ToggleMethod, reader: UserId)
    ensures ShoppingList.Download(FavoriteAction(s, user, pk, m).store, reader) == ShoppingList.Download(s, reader)
  {
  }

  /** Changing one user's cart never changes another user's shopping list. */
  lemma {:induction false} CartToggleLeavesOthersDownload(s: Store, user: UserId, pk: RecipeId, m: ToggleMethod, reader: UserId)
    requires reader != user
    ensures ShoppingList.Download(ShoppingCartAction(s, user, pk, m).store, reader) == ShoppingList.Download(s, reader)
  {
    var s1 := ShoppingCartAction(s, user, pk, m).store;
    assert s1.ingredients == s.ingredients;
    ShoppingList.CollectReadsOwnCart(s1.shoppingCart, s.shoppingCart, s.ingredients, reader, s.recipeIngredients);
  }
}

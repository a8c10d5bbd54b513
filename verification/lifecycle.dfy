/** Writes to the store as the models constrain them: validated inserts that the unique
    and foreign-key constraints can refuse, and deletes that cascade along `on_delete=CASCADE`. */
module Lifecycle {
  import opened Wrappers
  import opened Seqs
  import opened Dish

  /** Field validation failed, or the database refused a key. */
  datatype StoreError = ValidationError | IntegrityError

  /** Insert a tag. Tags are written only through the admin form, whose unique check reports
      a name, colour or slug already in use as a validation error, like a field error. */
  function AddTag(s: Store, t: Tag): (r: Result<Store, StoreError>)
    ensures r.Success? <==> ValidTag(t) && forall u :: u in s.tags ==> !TagsClash(u, t)
    ensures !ValidTag(t) ==> r == Failure(ValidationError)
    ensures r.Failure? ==> r == Failure(ValidationError)
    ensures r.Success? ==> r.value == s.(tags := s.tags + [t])
  {
    if !ValidTag(t) then Failure(ValidationError)
    else if exists u :: u in s.tags && TagsClash(u, t) then Failure(ValidationError)
    else Success(s.(tags := s.tags + [t]))
  }

  /** Insert an ingredient under the key the database hands out. Name and unit are not
      unique, so only the field bounds and the key itself can refuse it. */
  function AddIngredient(s: Store, id: IngredientId, g: Ingredient): (r: Result<Store, StoreError>)
    ensures r.Success? <==> ValidIngredient(g) && id !in s.ingredients
    ensures r.Success? ==> r.value == s.(ingredients := s.ingredients[id := g])
  {
    if !ValidIngredient(g) then Failure(ValidationError)
    else if id in s.ingredients then Failure(IntegrityError)
    else Success(s.(ingredients := s.ingredients[id := g]))
  }

  /** `perform_create`: store the recipe with the requesting user as its author. */
  function AddRecipe(s: Store, author: UserId, recipe: Recipe): (r: Result<Store, StoreError>)
    ensures r.Success? <==>
      ValidRecipe(recipe) && author in s.users && recipe.id !in RecipeIds(s.recipes)
    ensures !ValidRecipe(recipe) ==> r == Failure(ValidationError)
    ensures r.Success? ==> r.value == s.(recipes := s.recipes + [recipe.(author := author)])
  {
    if !ValidRecipe(recipe) then Failure(ValidationError)
    else if author !in s.users || recipe.id in RecipeIds(s.recipes) then Failure(IntegrityError)
    else Success(s.(recipes := s.recipes + [recipe.(author := author)]))
  }

  /** Insert a join row. Nothing makes (recipe, ingredient) unique, so a second row for the
      same pair is accepted. */
  function AddRecipeIngredient(s: Store, row: RecipeIngredient): (r: Result<Store, StoreError>)
    ensures r.Success? <==> ValidRow(s, row)
    ensures !(MinAmount <= row.amount <= MaxAmount) ==> r == Failure(ValidationError)
    ensures r.Success? ==> r.value == s.(recipeIngredients := s.recipeIngredients + [row])
  {
    if !(MinAmount <= row.amount <= MaxAmount) then Failure(ValidationError)
    else if row.recipe !in RecipeIds(s.recipes) || row.ingredient !in s.ingredients then Failure(IntegrityError)
    else Success(s.(recipeIngredients := s.recipeIngredients + [row]))
  }

  /** Delete a recipe; its join rows go with it. */
  function DeleteRecipe(s: Store, id: RecipeId): (r: Store)
    ensures id !in RecipeIds(r.recipes)
    ensures forall x :: x in r.recipes <==> x in s.recipes && x.id != id
    ensures forall row :: row in r.recipeIngredients <==> row in s.recipeIngredients && row.recipe != id
    ensures r.users == s.users && r.tags == s.tags && r.ingredients == s.ingredients
    ensures r.favorites == s.favorites && r.shoppingCart == s.shoppingCart && r.follows == s.follows
  {
    var recipes := Filter(s.recipes, (x: Recipe) => x.id != id);
    var rows := Filter(s.recipeIngredients, (row: RecipeIngredient) => row.recipe != id);
    s.(recipes := recipes, recipeIngredients := rows)
  }

  /** Delete an ingredient; every join row that uses it goes with it. */
  function DeleteIngredient(s: Store, id: IngredientId): (r: Store)
    ensures r.ingredients == s.ingredients - {id}
    ensures forall row :: row in r.recipeIngredients <==> row in s.recipeIngredients && row.ingredient != id
    ensures forall row: RecipeIngredient :: row.ingredient != id ==>
      multiset(r.recipeIngredients)[row] == multiset(s.recipeIngredients)[row]
    ensures r.users == s.users && r.tags == s.tags && r.recipes == s.recipes
    ensures r.favorites == s.favorites && r.shoppingCart == s.shoppingCart && r.follows == s.follows
  {
    FilterCounts(s.recipeIngredients, (row: RecipeIngredient) => row.ingredient != id);
    var rows := Filter(s.recipeIngredients, (row: RecipeIngredient) => row.ingredient != id);
    s.(ingredients := s.ingredients - {id}, recipeIngredients := rows)
  }

  /** Delete a user; the recipes they wrote go with them, and so do those recipes' join rows. */
  function DeleteUser(s: Store, u: UserId): (r: Store)
    ensures r.users == s.users - {u}
    ensures forall x :: x in r.recipes <==> x in s.recipes && x.author != u
    ensures forall row :: row in r.recipeIngredients <==>
      row in s.recipeIngredients && row.recipe !in AuthoredIds(s, u)
    ensures forall row: RecipeIngredient :: row.recipe !in AuthoredIds(s, u) ==>
      multiset(r.recipeIngredients)[row] == multiset(s.recipeIngredients)[row]
    ensures r.tags == s.tags && r.ingredients == s.ingredients
    ensures r.favorites == s.favorites && r.shoppingCart == s.shoppingCart && r.follows == s.follows
  {
    var gone := AuthoredIds(s, u);
    FilterCounts(s.recipeIngredients, (row: RecipeIngredient) => row.recipe !in gone);
    var recipes := Filter(s.recipes, (x: Recipe) => x.author != u);
    var rows := Filter(s.recipeIngredients, (row: RecipeIngredient) => row.recipe !in gone);
    s.(users := s.users - {u}, recipes := recipes, recipeIngredients := rows)
  }

  /** The unique indexes on Tag reject any second tag sharing a name, colour or slug. */
  lemma AddTagKeepsValid(s: Store, t: Tag)
    requires Valid(s) && AddTag(s, t).Success?
    ensures Valid(AddTag(s, t).value)
  {
  }

  /** Two ingredients may share a name and a unit: the second insert succeeds. */
  lemma SameNameIngredientAccepted(s: Store, a: IngredientId, b: IngredientId, g: Ingredient)
    requires ValidIngredient(g) && a != b && a !in s.ingredients && b !in s.ingredients
    ensures AddIngredient(s, a, g).Success?
    ensures AddIngredient(AddIngredient(s, a, g).value, b, g).Success?
  {
  }

  lemma AddIngredientKeepsValid(s: Store, id: IngredientId, g: Ingredient)
    requires Valid(s) && AddIngredient(s, id, g).Success?
    ensures Valid(AddIngredient(s, id, g).value)
  {
  }

  /** A new recipe keeps the primary keys unique and its validators keep cooking time positive. */
  lemma AddRecipeKeepsValid(s: Store, author: UserId, recipe: Recipe)
    requires Valid(s) && AddRecipe(s, author, recipe).Success?
    ensures Valid(AddRecipe(s, author, recipe).value)
  {
  }

  /** A second row for the same (recipe, ingredient) pair is stored alongside the first. */
  lemma DuplicateRowAccepted(s: Store, row: RecipeIngredient)
    requires row in s.recipeIngredients && ValidRow(s, row)
    ensures AddRecipeIngredient(s, row).Success?
    ensures multiset(AddRecipeIngredient(s, row).value.recipeIngredients)[row] >= 2
  {
  }

  lemma AddRecipeIngredientKeepsValid(s: Store, row: RecipeIngredient)
    requires Valid(s) && AddRecipeIngredient(s, row).Success?
    ensures Valid(AddRecipeIngredient(s, row).value)
  {
  }

  /** Deleting a recipe leaves every other recipe's rows with their multiplicities. */
  lemma DeleteRecipeKeepsOtherRows(s: Store, id: RecipeId, row: RecipeIngredient)
    requires row.recipe != id
    ensures multiset(DeleteRecipe(s, id).recipeIngredients)[row] == multiset(s.recipeIngredients)[row]
  {
    FilterCount(s.recipeIngredients, (x: RecipeIngredient) => x.recipe != id, row);
  }

  /** The cascade leaves no join row pointing at the deleted recipe, so the store stays valid. */
  lemma {:induction false} DeleteRecipeKeepsValid(s: Store, id: RecipeId)
    requires Valid(s)
    ensures Valid(DeleteRecipe(s, id))
  {
    var s' := DeleteRecipe(s, id);
    FilterKeepsIdsUnique(s.recipes, (x: Recipe) => x.id != id);
    forall row | row in s'.recipeIngredients
      ensures ValidRow(s', row)
    {
      assert ValidRow(s, row);
      var x := IdOwner(s.recipes, row.recipe);
      assert x in s'.recipes;
    }
  }

  lemma DeleteIngredientKeepsValid(s: Store, id: IngredientId)
    requires Valid(s)
    ensures Valid(DeleteIngredient(s, id))
  {
  }

  /** Every remaining recipe has a remaining author, and every remaining row a remaining recipe. */
  lemma {:induction false} DeleteUserKeepsValid(s: Store, u: UserId)
    requires Valid(s)
    ensures Valid(DeleteUser(s, u))
  {
    var s' := DeleteUser(s, u);
    FilterKeepsIdsUnique(s.recipes, (x: Recipe) => x.author != u);
    forall row | row in s'.recipeIngredients
      ensures ValidRow(s', row)
    {
      assert ValidRow(s, row);
      var x := IdOwner(s.recipes, row.recipe);
      assert x.author != u;
      assert x in s'.recipes;
    }
  }
}

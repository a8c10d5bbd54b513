/** The relational store of the recipe service (dish/models.py) as one immutable value:
    users, tags, ingredients, recipes and the recipe–ingredient join rows, plus the three
    (user, target) relations Favorite, ShoppingCart and Follow, each a set of pairs. */
module Dish {
  import opened Wrappers
  import opened Seqs

  type UserId = nat
  type RecipeId = nat
  type IngredientId = nat

  /** Field bounds declared on the models. */
  const TagNameMaxLength: nat := 200
  const TagColorMaxLength: nat := 7
  const TagSlugMaxLength: nat := 200
  const IngredientNameMaxLength: nat := 200
  const MeasurementUnitMaxLength: nat := 200
  const RecipeNameMaxLength: nat := 200
  /** An `ImageField` stores the file's name under the `max_length` of 100 it inherits. */
  const ImageMaxLength: nat := 100
  /** `MinValueValidator(1)` on `Recipe.cooking_time` and `RecipeIngredient.amount`. */
  const MinCookingTime: int := 1
  const MinAmount: int := 1
  /** The column ranges Django validates integer fields against: a `PositiveSmallIntegerField`
      holds at most 32767, an `IntegerField` at most 2147483647. */
  const MaxCookingTime: int := 32767
  const MaxAmount: int := 2147483647

  /** Who a request comes from: nobody, or a signed-in user. */
  datatype Requester = Anonymous | Authenticated(id: UserId)

  datatype Tag = Tag(name: string, color: string, slug: string)

  datatype Ingredient = Ingredient(name: string, measurementUnit: string)

  datatype Recipe = Recipe(
    id: RecipeId,
    author: UserId,
    name: string,
    image: string,
    text: string,
    cookingTime: int)

  /** One join row; nothing makes (recipe, ingredient) unique. */
  datatype RecipeIngredient = RecipeIngredient(recipe: RecipeId, ingredient: IngredientId, amount: int)

  /** `recipes` keeps the order in which the database lists them. */
  datatype Store = Store(
    users: set<UserId>,
    tags: seq<Tag>,
    ingredients: map<IngredientId, Ingredient>,
    recipes: seq<Recipe>,
    recipeIngredients: seq<RecipeIngredient>,
    favorites: set<(UserId, RecipeId)>,
    shoppingCart: set<(UserId, RecipeId)>,
    follows: set<(UserId, UserId)>)

  /** A required (`blank=False`) character field within its `max_length`. */
  predicate FilledWithin(s: string, maxLength: nat) {
    0 < |s| <= maxLength
  }

  /** The characters a `SlugField` admits when it does not allow Unicode: ASCII letters,
      digits, hyphen and underscore. */
  predicate IsSlugChar(c: char) {
    ('a' <= c <= 'z') || ('A' <= c <= 'Z') || ('0' <= c <= '9') || c == '-' || c == '_'
  }

  predicate ValidTag(t: Tag) {
    && FilledWithin(t.name, TagNameMaxLength)
    && FilledWithin(t.color, TagColorMaxLength)
    && FilledWithin(t.slug, TagSlugMaxLength)
    && (forall i :: 0 <= i < |t.slug| ==> IsSlugChar(t.slug[i]))
  }

  /** Two tags that cannot both be stored: they share a name, a colour or a slug. */
  predicate TagsClash(a: Tag, b: Tag) {
    a.name == b.name || a.color == b.color || a.slug == b.slug
  }

  /** `unique=True` on each of name, color and slug. */
  predicate TagsUnique(tags: seq<Tag>) {
    forall i, j :: 0 <= i < j < |tags| ==> !TagsClash(tags[i], tags[j])
  }

  /** Ingredients carry no uniqueness constraint, only field bounds. */
  predicate ValidIngredient(g: Ingredient) {
    FilledWithin(g.name, IngredientNameMaxLength) && FilledWithin(g.measurementUnit, MeasurementUnitMaxLength)
  }

  predicate ValidRecipe(r: Recipe) {
    && FilledWithin(r.name, RecipeNameMaxLength)
    && FilledWithin(r.image, ImageMaxLength)
    && |r.text| > 0
    && MinCookingTime <= r.cookingTime <= MaxCookingTime
  }

  /** The primary keys of a list of recipes. */
  function RecipeIds(recipes: seq<Recipe>): set<RecipeId> {
    set r | r in recipes :: r.id
  }

  predicate RecipeIdsUnique(recipes: seq<Recipe>) {
    forall i, j :: 0 <= i < j < |recipes| ==> recipes[i].id != recipes[j].id
  }

  /** The primary keys of the recipes `u` wrote. */
  function AuthoredIds(s: Store, u: UserId): set<RecipeId> {
    set x | x in s.recipes && x.author == u :: x.id
  }

  /** The recipe with primary key `id`, as `Recipe.objects.get(pk=id)` finds it. */
  function FindRecipe(recipes: seq<Recipe>, id: RecipeId): (r: Option<Recipe>)
    ensures r.Some? ==> r.value in recipes && r.value.id == id
    ensures r.None? <==> id !in RecipeIds(recipes)
  {
    if recipes == [] then None
    else if recipes[0].id == id then Some(recipes[0])
    else FindRecipe(recipes[1..], id)
  }

  /** A join row whose foreign keys resolve and whose amount passes its validator. */
  predicate ValidRow(s: Store, row: RecipeIngredient) {
    && row.recipe in RecipeIds(s.recipes)
    && row.ingredient in s.ingredients
    && MinAmount <= row.amount <= MaxAmount
  }

  /** The store invariants the models declare. The three pair relations carry none:
      their models are not part of this code. */
  predicate Valid(s: Store) {
    && (forall t :: t in s.tags ==> ValidTag(t))
    && TagsUnique(s.tags)
    && (forall id :: id in s.ingredients ==> ValidIngredient(s.ingredients[id]))
    && (forall r :: r in s.recipes ==> ValidRecipe(r) && r.author in s.users)
    && RecipeIdsUnique(s.recipes)
    && (forall row :: row in s.recipeIngredients ==> ValidRow(s, row))
  }

  /** The recipe that carries a primary key present in the list. */
  lemma IdOwner(recipes: seq<Recipe>, id: RecipeId) returns (x: Recipe)
    requires id in RecipeIds(recipes)
    ensures x in recipes && x.id == id
  {
    x :| x in recipes && x.id == id;
  }

  /** Keeping some recipes of a list with unique keys leaves the keys unique. */
  lemma {:induction false} FilterKeepsIdsUnique(recipes: seq<Recipe>, p: Recipe -> bool)
    requires RecipeIdsUnique(recipes)
    ensures RecipeIdsUnique(Filter(recipes, p))
  {
    if recipes != [] {
      var tail := recipes[1..];
      TailKeepsIdsUnique(recipes);
      FilterKeepsIdsUnique(tail, p);
      var rest := Filter(tail, p);
      if p(recipes[0]) {
        assert recipes[0].id !in RecipeIds(rest);
        PrependKeepsIdsUnique(recipes[0], rest);
      }
    }
  }

  lemma TailKeepsIdsUnique(recipes: seq<Recipe>)
    requires recipes != [] && RecipeIdsUnique(recipes)
    ensures RecipeIdsUnique(recipes[1..])
    ensures recipes[0].id !in RecipeIds(recipes[1..])
  {
  }

  lemma PrependKeepsIdsUnique(x: Recipe, rest: seq<Recipe>)
    requires RecipeIdsUnique(rest) && x.id !in RecipeIds(rest)
    ensures RecipeIdsUnique([x] + rest)
  {
  }

  /** With unique primary keys, a list holds exactly as many recipes as it has keys. */
  lemma {:induction false} UniqueIdsCount(recipes: seq<Recipe>)
    requires RecipeIdsUnique(recipes)
    ensures |RecipeIds(recipes)| == |recipes|
  {
    if recipes != [] {
      var tail := recipes[1..];
      TailKeepsIdsUnique(recipes);
      UniqueIdsCount(tail);
      assert recipes == [recipes[0]] + tail;
      assert RecipeIds(recipes) == {recipes[0].id} + RecipeIds(tail);
    }
  }
}

/** The computed fields of the user serializers: `is_subscribed`, the recipe preview cut
    to `recipes_limit`, and `recipes_count`. */
module UserSerializers {
  import opened Wrappers
  import opened Seqs
  import opened PyText
  import opened Dish

  /** The compact recipe form a follow card and a toggle reply carry. */
  datatype RecipeSummary = RecipeSummary(id: RecipeId, name: string, image: string, cookingTime: int)

  /** What a follow card shows of a user. Profile fields other than the id are not modelled. */
  datatype FollowCard = FollowCard(
    user: UserId,
    isSubscribed: bool,
    recipes: seq<RecipeSummary>,
    recipesCount: nat)

  /** A request that crashes with a server error instead of producing a reply: `int()`
      raising on a digit string, or a query handed the anonymous user where it needs a key. */
  datatype ServerError = UncaughtValueError | AnonymousLookup

  function Summary(r: Recipe): (m: RecipeSummary)
    ensures m.id == r.id && m.name == r.name && m.image == r.image && m.cookingTime == r.cookingTime
  {
    RecipeSummary(r.id, r.name, r.image, r.cookingTime)
  }

  /** `get_is_subscribed`: false for an anonymous requester, otherwise whether the
      requester follows `target`. */
  function IsSubscribed(s: Store, requester: Requester, target: UserId): (b: bool)
    ensures requester.Anonymous? ==> !b
    ensures requester.Authenticated? ==> (b <==> (requester.id, target) in s.follows)
  {
    match requester
    case Anonymous => false
    case Authenticated(u) => (u, target) in s.follows
  }

  /** `user.recipes.all()`, in the order the store lists them. */
  function UserRecipes(s: Store, u: UserId): (r: seq<Recipe>)
    ensures forall x :: x in r <==> x in s.recipes && x.author == u
    ensures forall x :: multiset(r)[x] == if x.author == u then multiset(s.recipes)[x] else 0
  {
    FilterCounts(s.recipes, (x: Recipe) => x.author == u);
    Filter(s.recipes, (x: Recipe) => x.author == u)
  }

  /** With unique primary keys, the preview list has one entry per key `u` authored. */
  lemma UserRecipesMatchAuthoredIds(s: Store, u: UserId)
    requires RecipeIdsUnique(s.recipes)
    ensures RecipeIds(UserRecipes(s, u)) == AuthoredIds(s, u)
    ensures |UserRecipes(s, u)| == |AuthoredIds(s, u)|
  {
    var mine := UserRecipes(s, u);
    FilterKeepsIdsUnique(s.recipes, (x: Recipe) => x.author == u);
    UniqueIdsCount(mine);
  }

  /** `recipes_count`: how many recipes `u` wrote, whatever the limit on the preview. */
  function RecipesCount(s: Store, u: UserId): (n: nat)
    ensures n <= |s.recipes|
    ensures n == 0 <==> forall x :: x in s.recipes ==> x.author != u
    ensures RecipeIdsUnique(s.recipes) ==> n == |AuthoredIds(s, u)|
  {
    var mine := UserRecipes(s, u);
    assert mine != [] ==> mine[0] in mine;
    assert RecipeIdsUnique(s.recipes) ==> |mine| == |AuthoredIds(s, u)| by {
      if RecipeIdsUnique(s.recipes) {
        UserRecipesMatchAuthoredIds(s, u);
      }
    }
    |mine|
  }

  /** The summaries of the first `n` recipes of the list (all of them when `n` is larger). */
  function SummarizeFirst(recipes: seq<Recipe>, n: nat): (r: seq<RecipeSummary>)
    ensures |r| == if n < |recipes| then n else |recipes|
    ensures forall i :: 0 <= i < |r| ==> r[i] == Summary(recipes[i])
  {
    if n == 0 || recipes == [] then [] else [Summary(recipes[0])] + SummarizeFirst(recipes[1..], n - 1)
  }

  /** The limit a `recipes_limit` value asks for: present only when the value is a
      non-empty string of decimal digits. */
  function RecipesLimit(limit: Option<string>): (n: Option<nat>)
    ensures n.Some? <==> limit.Some? && StrIsDecimal(limit.value)
    ensures n.Some? ==> PyInt(limit.value) == Success(n.value)
  {
    if limit.Some? && StrIsDecimal(limit.value) then Some(DigitsValue(limit.value)) else None
  }

  /** `get_recipes` with the guard it evidently intends: a usable limit cuts the list to
      its first `n` recipes, and anything else leaves the whole list. */
  function GetRecipes(recipes: seq<Recipe>, limit: Option<string>): (r: seq<RecipeSummary>)
    ensures |r| <= |recipes| && forall i :: 0 <= i < |r| ==> r[i] == Summary(recipes[i])
    ensures RecipesLimit(limit).Some? ==>
      |r| == if RecipesLimit(limit).value < |recipes| then RecipesLimit(limit).value else |recipes|
    ensures RecipesLimit(limit).None? ==> |r| == |recipes|
  {
    match RecipesLimit(limit)
    case Some(n) => SummarizeFirst(recipes, n)
    case None => SummarizeFirst(recipes, |recipes|)
  }

  /** `get_recipes` as the source writes it: guarded by `isdigit()`, then read with `int()`,
      which raises on digit characters that are not decimal. */
  function GetRecipesAsWritten(recipes: seq<Recipe>, limit: Option<string>): (r: Result<seq<RecipeSummary>, ServerError>)
    ensures r.Failure? <==> limit.Some? && StrIsDigit(limit.value) && !StrIsDecimal(limit.value)
    ensures r.Success? ==> r.value == GetRecipes(recipes, limit)
  {
    if limit.Some? && |limit.value| > 0 && StrIsDigit(limit.value) then
      match PyInt(limit.value)
      case Success(n) => Success(SummarizeFirst(recipes, n))
      case Failure(_) => Failure(UncaughtValueError)
    else
      Success(SummarizeFirst(recipes, |recipes|))
  }

  /** The superscript two passes `isdigit()` and then makes `int()` raise. */
  lemma SuperscriptLimitCrashes(recipes: seq<Recipe>)
    ensures StrIsDigit("²") && !StrIsDecimal("²")
    ensures GetRecipesAsWritten(recipes, Some("²")) == Failure(UncaughtValueError)
    ensures GetRecipes(recipes, Some("²")) == GetRecipes(recipes, None)
  {
    assert !IsDecimalChar("²"[0]);
  }

  /** A limit written by `str(n)` is always honoured. */
  lemma {:induction false} WrittenLimitHonoured(recipes: seq<Recipe>, n: nat)
    ensures |GetRecipes(recipes, Some(NatToString(n)))| == if n < |recipes| then n else |recipes|
    ensures GetRecipesAsWritten(recipes, Some(NatToString(n))) == Success(GetRecipes(recipes, Some(NatToString(n))))
  {
    NatToStringRoundTrip(n);
  }

  /** The follow card of `target` as `requester` sees it (`FollowSerializer`). */
  function MakeFollowCard(s: Store, requester: Requester, target: UserId, limit: Option<string>): (c: FollowCard)
    ensures c.user == target
    ensures c.isSubscribed == IsSubscribed(s, requester, target)
    ensures c.recipesCount == |UserRecipes(s, target)|
    ensures |c.recipes| <= c.recipesCount
    ensures forall i :: 0 <= i < |c.recipes| ==> c.recipes[i] == Summary(UserRecipes(s, target)[i])
    ensures RecipesLimit(limit).None? ==> |c.recipes| == c.recipesCount
    ensures RecipesLimit(limit).Some? ==>
      |c.recipes| == if RecipesLimit(limit).value < c.recipesCount then RecipesLimit(limit).value else c.recipesCount
  {
    var mine := UserRecipes(s, target);
    FollowCard(target, IsSubscribed(s, requester, target), GetRecipes(mine, limit), RecipesCount(s, target))
  }
}

/** The two flag filters of `CustomRecipeFilter`. The flag arrives as a number
    (a decimal in the source) and only the value 1 switches the filter on. */
module Filters {
  import opened Seqs
  import opened Dish

  /** The recipes of `queryset` that `u` has in `pairs`, in their original order. */
  function RestrictTo(queryset: seq<Recipe>, pairs: set<(UserId, RecipeId)>, u: UserId): (r: seq<Recipe>)
    ensures forall x :: x in r <==> x in queryset && (u, x.id) in pairs
  {
    Filter(queryset, (x: Recipe) => (u, x.id) in pairs)
  }

  /** Whether a flag filter restricts the list at all. */
  predicate FlagOn(requester: Requester, value: real) {
    requester.Authenticated? && value == 1.0
  }

  function FilterIsFavorited(s: Store, requester: Requester, queryset: seq<Recipe>, value: real): (r: seq<Recipe>)
    ensures FlagOn(requester, value) ==>
      forall x :: x in r <==> x in queryset && (requester.id, x.id) in s.favorites
    ensures !FlagOn(requester, value) ==> r == queryset
    ensures |r| <= |queryset| && forall x :: x in r ==> x in queryset
  {
    if FlagOn(requester, value) then RestrictTo(queryset, s.favorites, requester.id) else queryset
  }

  function FilterIsInShoppingCart(s: Store, requester: Requester, queryset: seq<Recipe>, value: real): (r: seq<Recipe>)
    ensures FlagOn(requester, value) ==>
      forall x :: x in r <==> x in queryset && (requester.id, x.id) in s.shoppingCart
    ensures !FlagOn(requester, value) ==> r == queryset
    ensures |r| <= |queryset| && forall x :: x in r ==> x in queryset
  {
    if FlagOn(requester, value) then RestrictTo(queryset, s.shoppingCart, requester.id) else queryset
  }

  /** Applying a flag filter twice gives what applying it once gives. */
  lemma {:induction false} FilterIsFavoritedIdempotent(s: Store, requester: Requester, queryset: seq<Recipe>, value: real)
    ensures FilterIsFavorited(s, requester, FilterIsFavorited(s, requester, queryset, value), value)
         == FilterIsFavorited(s, requester, queryset, value)
  {
    if FlagOn(requester, value) {
      var once := FilterIsFavorited(s, requester, queryset, value);
      FilterAllPass(once, (x: Recipe) => (requester.id, x.id) in s.favorites);
    }
  }

  /** The two flags commute: favorites-then-cart lists the same recipes as cart-then-favorites. */
  lemma FlagFiltersCommute(s: Store, requester: Requester, queryset: seq<Recipe>, fav: real, cart: real)
    ensures forall x ::
      x in FilterIsInShoppingCart(s, requester, FilterIsFavorited(s, requester, queryset, fav), cart)
      <==> x in FilterIsFavorited(s, requester, FilterIsInShoppingCart(s, requester, queryset, cart), fav)
  {
  }
}

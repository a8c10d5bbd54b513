/** `IsAuthorOrReadOnly`: anyone may read; writing needs a signed-in user, and writing to a
    particular recipe needs that recipe's author. */
module Permissions {
  import opened Dish

  /** The HTTP methods that only read. */
  const SafeMethods: set<string> := {"GET", "HEAD", "OPTIONS"}

  /** View level: a safe method, or any signed-in user. */
  function HasPermission(httpMethod: string, requester: Requester): (allowed: bool)
    ensures httpMethod in SafeMethods ==> allowed
    ensures httpMethod !in SafeMethods ==> (allowed <==> requester.Authenticated?)
  {
    httpMethod in SafeMethods || requester.Authenticated?
  }

  /** Object level: a safe method, or the recipe's own author. An anonymous requester is
      never equal to an author. */
  function HasObjectPermission(httpMethod: string, requester: Requester, recipe: Recipe): (allowed: bool)
    ensures httpMethod in SafeMethods ==> allowed
    ensures httpMethod !in SafeMethods ==> (allowed <==> requester == Authenticated(recipe.author))
  {
    httpMethod in SafeMethods || (requester.Authenticated? && requester.id == recipe.author)
  }

  /** Passing the object check implies passing the view check, so the object check is the
      one that decides writes to an existing recipe. */
  lemma ObjectPermissionImpliesViewPermission(httpMethod: string, requester: Requester, recipe: Recipe)
    ensures HasObjectPermission(httpMethod, requester, recipe) ==> HasPermission(httpMethod, requester)
  {
  }

  /** No one but the author can change or delete a recipe, whatever the unsafe method. */
  lemma NonAuthorCannotMutate(httpMethod: string, u: UserId, recipe: Recipe)
    requires httpMethod !in SafeMethods && u != recipe.author
    ensures !HasObjectPermission(httpMethod, Authenticated(u), recipe)
    ensures !HasObjectPermission(httpMethod, Anonymous, recipe)
  {
  }
}

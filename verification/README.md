# Recipe service core in Dafny

A model of the logic in a recipe-sharing web backend (foodgram). Users publish recipes made of
ingredients, favorite recipes, put them in a shopping cart, follow other authors and download
an aggregated shopping list. Almost all of the backend is framework wiring. This model covers
the parts that carry logic of their own:

- **The store** (`Dish`, `dish.dfy`): one immutable value holding users, tags, ingredients,
  recipes and the recipe–ingredient join rows. The Favorite, ShoppingCart and Follow relations
  are each a set of (user, target) pairs. `Dish.Valid` collects the invariants the models
  declare: required fields, `max_length` bounds (including the default 100 of the image
  field), slug characters, unique tag name, colour and slug, amount and cooking time at least
  1 and within their integer columns, and foreign keys that resolve.
- **Store writes** (`Lifecycle`, `lifecycle.dfy`): validated inserts, which field validation or
  a key that is taken or does not resolve can refuse, and the `on_delete=CASCADE` deletes. Each one keeps
  `Valid`.
- **The toggle views** (`RecipeViews`, `recipe_views.dfy`; `UserViews`, `user_views.dfy`):
  `favorite_shoppingcart_logic` behind the `favorite` and `shopping_cart` actions, and
  `subscribe` and `subscriptions`. The toggles and `subscribe` return a `Step`: the store
  afterwards, plus either a reply (`Created` with a body, or `NoContent`) or the error it raised
  (`Api`, `api.dfy`). The read-only `subscriptions` returns the followed users or a server error.
- **The shopping-list download** (`ShoppingList`, `shopping_list.dfy`): it selects the join
  rows of the recipes in the user's cart, groups them by (ingredient name, measurement unit),
  sums the amounts and writes one `"{name} ({unit}) - {amount}\n"` line per group.
- **Permissions, filters and serializer fields** (`Permissions`, `Filters`, `UserSerializers`):
  `IsAuthorOrReadOnly`, the `is_favorited` / `is_in_shopping_cart` flag filters,
  `is_subscribed`, the `recipes_limit` preview and `recipes_count`.
- **Helpers**: `Wrappers` (Option/Result), `Seqs` (order-preserving filter) and `PyText`
  (Python's `str(int)`, `str.isdigit`, `str.isdecimal` and `int(str)` on digit strings).

The requesting user is an explicit parameter: a `UserId` for the toggles, which need a
signed-in user, and a `Requester` (`Anonymous` or `Authenticated(id)`) where the code tests
`is_authenticated`. The database's query order is never specified in the code. The model
therefore fixes one order and states its properties without depending on it. Recipe lists keep
store order. The shopping-list fold visits the items from last to first and appends each new
key at the end, so its groups come in the reverse order of each key's last appearance.

`favorite_shoppingcart_logic` reports a missing recipe differently for the two methods. POST
looks the recipe up directly and raises the 400 "no such recipe" error (`NoSuchRecipe`). DELETE
goes through `get_object`, which raises a 404 (`NotFound`).

The download query (backend/api/views.py:95-101) has no `order_by`, so line order is
unspecified. `ShoppingList.ShoppingListsArePermutations` shows that any two correct results
differ only in order. `RecipeIngredient` (backend/dish/models.py:100-107) declares no
uniqueness on (recipe, ingredient), so the model allows duplicate rows, and each one counts in
the sum (`Lifecycle.DuplicateRowAccepted`).

## Model

| member | source | states |
|---|---|---|
| `Lifecycle.AddTag` | backend/dish/models.py:9-27 | a tag is stored iff its name, colour and slug are non-empty and within 200, 7 and 200 characters, the slug holds only ASCII letters, digits, `-` and `_`, and none of the three is already used by a stored tag; every refusal, a field error or a clash, is a validation error, as the admin form reports it |
| `Lifecycle.AddTagKeepsValid` | backend/dish/models.py:9-27 | after any accepted insert, name, colour and slug are each still unique across all tags |
| `Lifecycle.AddIngredient` | backend/dish/models.py:37-47 | an ingredient is refused only for a blank or over-long name or unit, or a key already in use; name and unit carry no uniqueness check |
| `Lifecycle.SameNameIngredientAccepted` | backend/dish/models.py:37-47 | two ingredients with different ids but the same name and unit are both stored |
| `Lifecycle.AddIngredientKeepsValid` | backend/dish/models.py:37-47 | an accepted ingredient insert keeps every store invariant |
| `Lifecycle.AddRecipe` | backend/dish/models.py:57-89 | a recipe is stored with the given author iff its fields are filled, its name is within 200 characters and its image name within 100, its cooking time is between 1 and 32767, the author exists and its key is free |
| `Lifecycle.AddRecipeKeepsValid` | backend/dish/models.py:57-89 | an accepted recipe insert keeps recipe keys unique and every cooking time at least 1 |
| `Lifecycle.AddRecipeIngredient` | backend/dish/models.py:100-107 | a join row is stored iff its recipe and ingredient exist and its amount lies between 1 and 2147483647; an amount outside that range is a validation error |
| `Lifecycle.DuplicateRowAccepted` | backend/dish/models.py:100-111 | a second row for an existing (recipe, ingredient) pair is accepted, so the pair then occurs at least twice |
| `Lifecycle.AddRecipeIngredientKeepsValid` | backend/dish/models.py:100-107 | an accepted row insert keeps every store invariant |
| `Lifecycle.DeleteRecipe` | backend/dish/models.py:101 | deleting a recipe removes it and exactly the join rows that reference it; no other row, recipe, user, tag, ingredient or relation changes |
| `Lifecycle.DeleteRecipeKeepsOtherRows` | backend/dish/models.py:101 | every join row of another recipe keeps its multiplicity across the delete |
| `Lifecycle.DeleteRecipeKeepsValid` | backend/dish/models.py:101 | the cascade leaves a valid store: no dangling join row remains |
| `Lifecycle.DeleteIngredient` | backend/dish/models.py:102 | deleting an ingredient removes it and exactly the join rows that use it; every other row keeps its multiplicity |
| `Lifecycle.DeleteIngredientKeepsValid` | backend/dish/models.py:102 | the ingredient cascade leaves a valid store |
| `Lifecycle.DeleteUser` | backend/dish/models.py:58-62 | deleting a user removes the user, exactly the recipes they wrote, and exactly the join rows of those recipes; every other row keeps its multiplicity |
| `Lifecycle.DeleteUserKeepsValid` | backend/dish/models.py:58-62 | the two-step cascade leaves a valid store: every remaining recipe has an author and every remaining row a recipe |
| `Permissions.HasPermission` | backend/api/permissions.py:6-10 | a safe method is always allowed; an unsafe method is allowed iff the requester is signed in |
| `Permissions.HasObjectPermission` | backend/api/permissions.py:12-16 | a safe method is always allowed; an unsafe method is allowed iff the requester is the recipe's author |
| `Permissions.ObjectPermissionImpliesViewPermission` | backend/api/permissions.py:6-16 | whoever passes the object check also passes the view check |
| `Permissions.NonAuthorCannotMutate` | backend/api/permissions.py:12-16 | with an unsafe method, neither another signed-in user nor an anonymous requester passes the object check |
| `Filters.FilterIsFavorited` | backend/api/filters.py:20-23 | for a signed-in requester and value 1, the result is exactly the input recipes the requester favorited; otherwise the input is unchanged; the result is always drawn from the input |
| `Filters.FilterIsInShoppingCart` | backend/api/filters.py:25-28 | for a signed-in requester and value 1, the result is exactly the input recipes in the requester's cart; otherwise the input is unchanged; the result is always drawn from the input |
| `Filters.FilterIsFavoritedIdempotent` | backend/api/filters.py:20-23 | applying the favorites filter to its own result changes nothing |
| `Filters.FlagFiltersCommute` | backend/api/filters.py:20-28 | the two flag filters select the same recipes in either order |
| `UserSerializers.IsSubscribed` | backend/users/serializers.py:22-28 | false for an anonymous requester; for a signed-in requester, true iff the requester follows the target |
| `UserSerializers.UserRecipes` | backend/users/serializers.py:52 | a user's recipes are the stored recipes that user wrote, each with the multiplicity it has in the store, and no other recipe |
| `UserSerializers.UserRecipesMatchAuthoredIds` | backend/users/serializers.py:41-52 | with unique recipe keys, the user's recipe list carries exactly the keys of the recipes the user wrote, one entry per key |
| `UserSerializers.RecipesCount` | backend/users/serializers.py:41 | the count covers every recipe of the user, whatever the limit: it is the number of distinct recipe keys the user wrote (given unique keys), and 0 iff the user wrote none |
| `UserSerializers.RecipesLimit` | backend/users/serializers.py:51-54 | a limit is taken iff the parameter is present and a non-empty string of decimal digits, and it is the number `int` reads from it |
| `UserSerializers.GetRecipes` | backend/users/serializers.py:49-55 | the preview is always a prefix of the user's recipes; with a usable limit n it has min(n, count) entries, and otherwise all of them |
| `UserSerializers.GetRecipesAsWritten` | backend/users/serializers.py:49-55 | the source's guard: it crashes iff the parameter is all digit characters but not all decimal; otherwise it agrees with `GetRecipes` |
| `UserSerializers.SuperscriptLimitCrashes` | backend/users/serializers.py:53-54 | "²" passes `isdigit()` but fails `isdecimal()`; as written the request crashes, and the corrected preview ignores the limit |
| `UserSerializers.WrittenLimitHonoured` | backend/users/serializers.py:53-54 | a limit written as a plain decimal number n is honoured by both versions and gives min(n, count) recipes |
| `UserSerializers.MakeFollowCard` | backend/users/serializers.py:39-55 | a follow card shows the target, the requester's `is_subscribed`, `recipes_count` equal to the number of the target's recipes, and a preview whose i-th entry summarises the target's i-th recipe, with min(limit, count) entries for a usable limit and all of them otherwise |
| `PyText.PyInt` | backend/users/serializers.py:54 | `int` succeeds on a string exactly when every character is a decimal digit |
| `PyText.NatToStringRoundTrip` | backend/api/views.py:111 | the decimal text written for a natural number is all decimal digits and reads back as that number |
| `PyText.IntToString` | backend/api/views.py:111 | the text of an amount is non-empty and starts with a minus sign iff the amount is negative |
| `RecipeViews.FavoriteShoppingCartLogic` | backend/api/views.py:60-81 | POST for a missing recipe fails with "no such recipe", DELETE for one with not-found; POST of a present pair fails with "already added", DELETE of an absent pair with "not yet added"; success happens iff neither applies, and then adds or removes exactly that pair, with the recipe summary for POST and no content for DELETE; every failure leaves the store unchanged |
| `RecipeViews.FavoriteAction` | backend/api/views.py:83-86 | the favorite action never touches the cart, follows, recipes or join rows, and after success the pair is a favorite iff the method was POST |
| `RecipeViews.ShoppingCartAction` | backend/api/views.py:88-91 | the cart action never touches favorites, follows, recipes or join rows, and after success the pair is in the cart iff the method was POST |
| `RecipeViews.SecondAddConflicts` | backend/api/views.py:67-71 | after a successful add, a second add fails with "already added" and changes nothing |
| `RecipeViews.AddThenRemoveRestores` | backend/api/views.py:60-81 | a successful add followed by a delete succeeds and gives back the original store |
| `RecipeViews.SecondRemoveConflicts` | backend/api/views.py:76-80 | after a successful delete, a second delete fails with "not yet added" and changes nothing |
| `RecipeViews.ToggleKeepsValid` | backend/api/views.py:60-81 | the toggles keep every store invariant |
| `RecipeViews.FavoriteLeavesDownloadUnchanged` | backend/api/views.py:93-101 | a favorite toggle never changes anyone's downloaded shopping list |
| `RecipeViews.CartToggleLeavesOthersDownload` | backend/api/views.py:95-101 | changing one user's cart never changes another user's shopping list |
| `ShoppingList.Collect` | backend/api/views.py:95-98 | the selection is empty iff no join row belongs to a recipe in the user's cart (with a resolvable ingredient); with all amounts at least 1, every selected amount is at least 1 |
| `ShoppingList.CollectTotal` | backend/api/views.py:95-99 | for every (name, unit) key, the selected items of that key sum to the amounts of the cart rows whose ingredient has that key |
| `ShoppingList.CollectKeys` | backend/api/views.py:95-98 | the selected items carry exactly the (name, unit) keys of the ingredients of the cart rows |
| `ShoppingList.CollectSum` | backend/api/views.py:95-99 | the selected items add up to the amounts of all cart rows |
| `ShoppingList.CartListIsShoppingList` | backend/api/views.py:95-99 | a grouping of the selected items is correct iff it has distinct keys, exactly the keys of the cart rows, and for each key the sum of that key's cart-row amounts |
| `ShoppingList.Insert` | backend/api/views.py:95-100 | adding an item to distinct-key groups keeps keys distinct, adds its key, raises exactly its own group's total by its amount, leaves the other groups alone, and raises the grand total by its amount |
| `ShoppingList.Group` | backend/api/views.py:95-101 | the groups have distinct keys, one per (name, unit) that occurs among the selected rows and no other, each holding the sum of that key's amounts |
| `ShoppingList.GroupConservesAmount` | backend/api/views.py:95-101 | the group totals add up to the sum of all selected amounts |
| `ShoppingList.ShoppingListsArePermutations` | backend/api/views.py:95-101 | any two results meeting the grouped query's description are permutations of each other, so only line order is left open |
| `ShoppingList.TotalPositive` | backend/dish/models.py:103-107 | when every amount is at least 1, each key that occurs sums to at least 1 |
| `ShoppingList.DownloadTotalsPositive` | backend/dish/models.py:103-107 | in a valid store every total in the download is at least 1 |
| `ShoppingList.RenderLine` | backend/api/views.py:109-112 | every written line is non-empty and ends in a line break |
| `ShoppingList.RenderedAmountReadsBack` | backend/api/views.py:111 | the number a line ends with reads back as the group's total |
| `ShoppingList.LastWordAfterSpace` | backend/api/views.py:111 | the word after the last space of "… - " followed by a number is that number |
| `ShoppingList.Render` | backend/api/views.py:109-113 | the document is empty iff there are no groups, and otherwise ends in a line break |
| `ShoppingList.Download` | backend/api/views.py:93-113 | the body is the rendering of a grouping of the user's cart rows that has one line per (name, unit) key of those rows, with distinct keys, each carrying the sum of that key's row amounts; it is empty iff no join row of a cart recipe is selected, and in particular for an empty cart |
| `ShoppingList.DownloadConservesAmount` | backend/api/views.py:95-101 | the download's totals add up to the amounts of all the user's cart rows |
| `ShoppingList.CollectReadsOwnCart` | backend/api/views.py:95-98 | the selection for a user depends only on that user's own cart pairs |
| `ShoppingList.SaltExampleValid` | backend/dish/models.py:37-47 | a store with two ingredient ids both named "Salt" in grams is valid |
| `ShoppingList.SaltExampleMerged` | backend/api/views.py:95-113 | with 5 of one and 3 of the other in cart recipes, the download is the single line "Salt (g) - 8" |
| `UserViews.Subscriptions` | backend/users/views.py:21-25 | an anonymous requester passes the read-only permission and the lookup fails with a server error; for a signed-in requester the subscriptions are exactly the existing users the requester follows |
| `UserViews.Subscribe` | backend/users/views.py:32-58 | a missing target fails with not-found first; POST to oneself fails with the self-subscription error, POST of an existing follow with "already subscribed", DELETE of a missing follow with "not subscribed"; otherwise exactly that follow is added or removed, and POST replies with the target's follow card as the requester sees it in the new store, so showing `is_subscribed` true; failures change nothing |
| `UserViews.SelfSubscriptionRefused` | backend/users/views.py:35-40 | subscribing to oneself always fails and leaves the store unchanged, whatever the prior state |
| `UserViews.SubscribeKeepsNoSelfFollow` | backend/users/views.py:36-51 | if nobody follows themselves before a subscribe call, nobody does after it |
| `UserViews.SubscribeVisible` | backend/users/views.py:41-58 | after a successful call, `is_subscribed` is true iff it was POST, and the target enters or leaves the subscriptions |
| `UserViews.SubscribeThenUnsubscribeRestores` | backend/users/views.py:41-58 | a successful subscribe followed by an unsubscribe succeeds and gives back the original store |
| `UserViews.SecondSubscribeConflicts` | backend/users/views.py:41-47 | after a successful subscribe, a second one fails with "already subscribed" and changes nothing |
| `UserViews.IsSubscribedMatchesSubscriptions` | backend/users/views.py:25 | for an existing target, `is_subscribed` is true iff the target is among the requester's subscriptions |
| `Seqs.Filter` | backend/api/filters.py:22 | selection keeps exactly the passing elements and never more than the input |
| `Seqs.FilterCount` | backend/api/filters.py:22 | selection keeps every copy of a passing element and no copy of a failing one |
| `Seqs.FilterAppend` | backend/api/filters.py:22 | selection keeps the input order: filtering a concatenation is the concatenation of the filtered parts |

## Left out

- HTTP plumbing is reduced to the `Step` outcome: status codes, response objects, the `Content-Disposition` header, content type and router registration (backend/api/urls.py).
- Pagination: `LimitNumberPagination` and the `LimitOffsetPagination` on `subscriptions` configure library classes. `UserViews.Subscriptions` is therefore an unpaged set.
- The admin screens and the CSV ingredient loader: UI registration and file I/O.
- The permission classes on the actions (`IsAuthenticated`, `IsAuthenticatedOrReadOnly`) and `get_permissions` belong to the framework. The toggles and `subscribe` take an already signed-in user.
- `get_object` also runs the request's filter parameters and object permissions. Only its "no such object" outcome is modelled.
- The recipe read/write serializers (`ReadRecipeSerializer`, `WriteRecipeSerializer`, `BaseRecipeSerializer`) are not part of this model: backend/api/serializers.py does not define them, so recipe-write validation (empty or duplicate ingredients and tags, full-replace update) has no code to follow. `RecipeSummary` assumes the compact form carries id, name, image and cooking time.
- The Favorite, ShoppingCart and Follow models are not part of this model (Follow is declared with no fields). Each relation is a set of pairs, so a pair occurs at most once. Their storage constraints and their behaviour when a user or recipe is deleted are unknown, so the deletes leave them alone and `Dish.Valid` requires nothing of them.
- The recipe–tag many-to-many table, the tag-slug filter, the author filter and the ingredient name search live in the framework and filtering library.
- User profile fields (email, username, names) and the `CustomUser` model. A user is an id, and a follow card carries only the id.
- Concurrency: the check-then-insert race of `get_or_create` and its backstop in a storage-level unique constraint. Every operation is one sequential step.
- A non-numeric id in the URL: ids are natural numbers here. The POST toggle looks the recipe up directly (backend/api/views.py:64), where such an id is a server error; the DELETE toggle and `subscribe` go through `get_object`, which answers it with not-found.
- UserViews.Subscribe: the card in the POST reply uses the corrected preview `UserSerializers.GetRecipes`. As written, a `recipes_limit` of "²" first stores the follow and then fails with a server error while the card is built (see Findings); that crash outcome is stated only by `UserSerializers.GetRecipesAsWritten`.
- UserViews.Subscriptions: returns the set of followed users, not the page of follow cards; each card is `UserSerializers.MakeFollowCard`, and the "²" crash of the Findings applies to it as well.
- Lifecycle.AddTag: the slug check is the ASCII `SlugField` validator; `unique=True` is compared on the exact strings, without any database collation. Tags are written only through the admin form (backend/dish/admin.py:26), whose unique check reports a clash as a validation error; an insert that bypassed the form would meet the unique index as an integrity error instead, and that path is not modelled.
- Image content: an `ImageField` also checks that the upload decodes as an image. Only its stored name and its length are modelled.
- PyText.DecimalValue: only the ASCII, Arabic-Indic, Extended Arabic-Indic, Devanagari and Fullwidth digit blocks are modelled as Unicode decimal digits.
- PyText.IsNonDecimalDigit: only the superscript, subscript and circled digits are modelled; Unicode has further non-decimal digit characters.
- PyText.PyInt: the whitespace, sign and underscore handling of `int()` is not modelled. It is only reached with strings that passed `isdigit()`, which contain none of those. Nor is CPython's limit on the length of a decimal string (4300 digits by default), beyond which `int()` raises ValueError; the model reads digit strings of any length.
- UserSerializers.GetRecipesAsWritten: a decimal limit is honoured at any size. In the source the slice becomes a SQL `LIMIT`, which the database holds in a 64-bit integer, so a limit of 2^63 or more fails in the query, and one past `int()`'s digit limit fails before it; neither crash is modelled. `UserSerializers.GetRecipes` likewise treats every decimal limit as usable.
- UserSerializers.WrittenLimitHonoured: holds for every n in the model; in the source only for limits that fit the query's 64-bit `LIMIT`.
- UserSerializers.UserRecipes: reads `user.recipes` (backend/users/serializers.py:41, 52) as the recipes the user wrote. backend/dish/models.py:94 sets `default_related_name = 'recipe'`, under which that reverse relation would be named `recipe` and `user.recipes` would raise AttributeError; that models file also lacks the Favorite and ShoppingCart models the views import, so it is evidently not the revision the serializer runs against, and the model follows the serializer's intent.
- ShoppingList.Render: a name or unit containing a line break would spread one group over two text lines. "One line per group" is stated for the groups, not by counting line breaks.
- The summed amount is an unbounded integer. The database's integer width for `Sum('amount')` is not modelled.

## Findings

| source | as written | input that shows it | evidently intended | confidence | as-written member | corrected member |
|---|---|---|---|---|---|---|
| backend/users/serializers.py:53-54 | `recipes_limit.isdigit()` guards `int(recipes_limit)`, but `isdigit()` also accepts digit characters that `int()` rejects | `?recipes_limit=²` (superscript two): `isdigit()` is true, `int("²")` raises ValueError, and the subscription request fails with a server error | take the limit only when `int` can read it (`isdecimal()`), and otherwise return every recipe as for any other unusable value | high; not executed | `UserSerializers.GetRecipesAsWritten` (shown by `UserSerializers.SuperscriptLimitCrashes`) | `UserSerializers.GetRecipes` (used by `UserSerializers.MakeFollowCard`) |

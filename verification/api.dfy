/** What a view hands back, with the HTTP plumbing stripped away: the store afterwards and
    either a reply or the error the view raised. */
module Api {
  import opened Wrappers
  import opened Dish

  /** The two methods the toggle actions accept. */
  datatype ToggleMethod = Post | Delete

  /** The errors the toggle views raise. All are 400 responses except `NotFound` (404). */
  datatype ApiError =
    | NoSuchRecipe        // POST for a recipe id that does not exist
    | NotFound            // `get_object` found no such recipe or user
    | AlreadyAdded        // POST for a recipe already in the relation
    | NotYetAdded         // DELETE for a recipe not in the relation
    | SelfSubscription    // POST subscribing a user to themselves
    | AlreadySubscribed   // POST for a follow that exists
    | NotSubscribed       // DELETE for a follow that does not exist

  /** 201 with a body, or 204 with none. */
  datatype Reply<+T> = Created(body: T) | NoContent

  datatype Step<+T> = Step(store: Store, reply: Result<Reply<T>, ApiError>)
}

/** `CustomUserViewSet.subscriptions` and `subscribe`: the users the requester follows, and
    following or unfollowing another user. */
module UserViews {
  import opened Wrappers
  import opened Dish
  import opened UserSerializers
  import opened Api

  /** `subscriptions`: the existing users the requester follows. The action is a read, so an
      anonymous requester gets through the permission check, and the query, which needs a
      user's key, fails on the anonymous user with a server error. Paging is not modelled. */
  function Subscriptions(s: Store, requester: Requester): (r: Result<set<UserId>, ServerError>)
    ensures r.Failure? <==> requester.Anonymous?
    ensures r.Failure? ==> r.error == AnonymousLookup
    ensures r.Success? ==> forall t :: t in r.value <==> t in s.users && (requester.id, t) in s.follows
  {
    match requester
    case Anonymous => Failure(AnonymousLookup)
    case Authenticated(user) => Success(set t | t in s.users && (user, t) in s.follows)
  }

  /** The application rule the source keeps by hand: nobody follows themselves. */
  predicate NoSelfFollow(follows: set<(UserId, UserId)>) {
    forall pair :: pair in follows ==> pair.0 != pair.1
  }

  /** `subscribe`: the target must exist (`get_object`) before anything else is looked at;
      POST refuses a self-subscription before it looks at the follow relation, refuses an
      existing follow, and otherwise adds it and replies with the target's follow card;
      DELETE removes an existing follow or refuses a missing one. */
  function Subscribe(s: Store, user: UserId, target: UserId, m: ToggleMethod, recipesLimit: Option<string>): (r: Step<FollowCard>)
    ensures r.reply.Failure? ==> r.store == s
    ensures target !in s.users ==> r.reply == Failure(NotFound)
    ensures target in s.users && m == Post && user == target ==> r.reply == Failure(SelfSubscription)
    ensures target in s.users && m == Post && user != target && (user, target) in s.follows ==>
      r.reply == Failure(AlreadySubscribed)
    ensures target in s.users && m == Delete && (user, target) !in s.follows ==>
      r.reply == Failure(NotSubscribed)
    ensures r.reply.Success? <==>
      && target in s.users
      && (if m == Post then user != target && (user, target) !in s.follows else (user, target) in s.follows)
    ensures r.reply.Success? ==>
      r.store == s.(follows := if m == Post then s.follows + {(user, target)} else s.follows - {(user, target)})
    ensures r.reply.Success? && m == Post ==>
      r.reply.value.Created? && r.reply.value.body.user == target && r.reply.value.body.isSubscribed
    ensures r.reply.Success? && m == Post ==>
      r.reply.value == Created(MakeFollowCard(r.store, Authenticated(user), target, recipesLimit))
    ensures r.reply.Success? && m == Delete ==> r.reply.value == NoContent
  {
    if target !in s.users then Step(s, Failure(NotFound))
    else if m == Post then
      if user == target then Step(s, Failure(SelfSubscription))
      else if (user, target) in s.follows then Step(s, Failure(AlreadySubscribed))
      else
        var s' := s.(follows := s.follows + {(user, target)});
        Step(s', Success(Created(MakeFollowCard(s', Authenticated(user), target, recipesLimit))))
    else
      if (user, target) !in s.follows then Step(s, Failure(NotSubscribed))
      else Step(s.(follows := s.follows - {(user, target)}), Success(NoContent))
  }

  /** Subscribing to oneself never succeeds and never changes the store, whatever it holds. */
  lemma SelfSubscriptionRefused(s: Store, u: UserId, recipesLimit: Option<string>)
    ensures Subscribe(s, u, u, Post, recipesLimit).store == s
    ensures Subscribe(s, u, u, Post, recipesLimit).reply
         == Failure(if u in s.users then SelfSubscription else NotFound)
  {
  }

  /** No sequence of subscribe calls can make a user follow themselves. */
  lemma SubscribeKeepsNoSelfFollow(s: Store, user: UserId, target: UserId, m: ToggleMethod, recipesLimit: Option<string>)
    requires NoSelfFollow(s.follows)
    ensures NoSelfFollow(Subscribe(s, user, target, m, recipesLimit).store.follows)
  {
  }

  /** After a successful subscribe or unsubscribe, `is_subscribed` and `subscriptions`
      both report the new state. */
  lemma SubscribeVisible(s: Store, user: UserId, target: UserId, m: ToggleMethod, recipesLimit: Option<string>)
    requires Subscribe(s, user, target, m, recipesLimit).reply.Success?
    ensures var s' := Subscribe(s, user, target, m, recipesLimit).store;
      && IsSubscribed(s', Authenticated(user), target) == (m == Post)
      && var before, after := Subscriptions(s, Authenticated(user)).value, Subscriptions(s', Authenticated(user)).value;
         after == if m == Post then before + {target} else before - {target}
  {
  }

  /** A successful subscribe followed by an unsubscribe gives back the store it started from. */
  lemma SubscribeThenUnsubscribeRestores(s: Store, user: UserId, target: UserId, recipesLimit: Option<string>)
    requires Subscribe(s, user, target, Post, recipesLimit).reply.Success?
    ensures var s1 := Subscribe(s, user, target, Post, recipesLimit).store;
      Subscribe(s1, user, target, Delete, recipesLimit) == Step(s, Success(NoContent))
  {
  }

  /** Subscribing twice: the second POST is refused and changes nothing. */
  lemma SecondSubscribeConflicts(s: Store, user: UserId, target: UserId, recipesLimit: Option<string>)
    requires Subscribe(s, user, target, Post, recipesLimit).reply.Success?
    ensures var s1 := Subscribe(s, user, target, Post, recipesLimit).store;
      Subscribe(s1, user, target, Post, recipesLimit) == Step(s1, Failure(AlreadySubscribed))
  {
  }

  /** `is_subscribed` agrees with `subscriptions` for every existing user. */
  lemma IsSubscribedMatchesSubscriptions(s: Store, user: UserId, target: UserId)
    requires target in s.users
    ensures IsSubscribed(s, Authenticated(user), target) <==> target in Subscriptions(s, Authenticated(user)).value
  {
  }
}

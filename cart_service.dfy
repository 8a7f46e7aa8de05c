/** The cart orchestration service. Each operation is a fail-fast chain:
    identity from the request context, then the subscription check, then
    (for add only) the toy check, then the cart store. The subscription
    client, the toy client and the store are oracles handed in as functions;
    every operation returns its result together with the calls it made, in
    the order it made them. */
module CartService {
  import opened CartTypes

  /** What the request context holds under the user id key. */
  datatype ContextValue = Absent | NotInt64 | Int64(id: int)

  /** The subscription status the subscription client answers with; every
      status other than SUBSCRIBED is NotSubscribed here. */
  datatype SubStatus = Subscribed | NotSubscribed

  /** The status of the toy client's answer; every status other than OK,
      including the client's own INTERNAL_ERROR answers, is ToyNotOk. */
  datatype ToyStatus = ToyOk | ToyNotOk

  /** A call the service makes to one of its collaborators. */
  datatype Call =
    | CheckSubscription(user: int)
    | GetToy(toyId: int)
    | StoreAdd(item: CartItem, user: int)
    | StoreDel(toyId: int, user: int)
    | StoreGet(user: int)
  {
    predicate IsStoreCall()
    {
      StoreAdd? || StoreDel? || StoreGet?
    }
  }

  /** The service's collaborators, as the answers they give. */
  datatype Collaborators = Collaborators(
    subscription: int -> SubStatus,
    toy: int -> ToyStatus,
    storeAdd: (CartItem, int) -> Reply,
    storeDel: (int, int) -> Reply,
    storeGet: int -> CartRead)

  /** A result and the collaborator calls made to produce it. */
  datatype Outcome<T> = Outcome(result: T, calls: seq<Call>)

  const InvalidUser: Reply := Reply(StatusInvalidUser, "invalid user")
  const NotSubscribedReply: Reply := Reply(StatusInvalidUser, "user is not subscribed!")
  const ToyMissing: Reply := Reply(StatusInternalError, "toy is not exist in database!")

  /** Whether a call trace reaches the store. */
  predicate StoreCalled(calls: seq<Call>)
  {
    exists i :: 0 <= i < |calls| && calls[i].IsStoreCall()
  }

  /** The calls of an add in the only order they may happen. */
  function AddPlan(user: int, item: CartItem): seq<Call>
  {
    [CheckSubscription(user), GetToy(item.toyId), StoreAdd(item, user)]
  }

  /** The calls of a delete in the only order they may happen. */
  function DelPlan(user: int, toyId: int): seq<Call>
  {
    [CheckSubscription(user), StoreDel(toyId, user)]
  }

  /** The calls of a read in the only order they may happen. */
  function GetPlan(user: int): seq<Call>
  {
    [CheckSubscription(user), StoreGet(user)]
  }

  /** The user id of the request: present only when the context holds an
      int64 under the user id key. */
  function UserFromContext(ctx: ContextValue): (r: Option<int>)
    ensures r.Some? <==> ctx.Int64?
    ensures r.Some? ==> r.value == ctx.id
  {
    match ctx
    case Int64(id) => Some(id)
    case _ => None
  }

  /** Whether the user of `ctx` is identified and subscribed. */
  predicate Entitled(env: Collaborators, ctx: ContextValue)
  {
    ctx.Int64? && env.subscription(ctx.id) == Subscribed
  }

  /** Adds an item to the caller's cart. */
  function AddToCart(env: Collaborators, ctx: ContextValue, item: CartItem): (r: Outcome<Reply>)
    // identity failure: nothing is called
    ensures !ctx.Int64? ==> r == Outcome(InvalidUser, [])
    // the calls made are a non-empty prefix of subscription, toy, store
    ensures ctx.Int64? ==> r.calls <= AddPlan(ctx.id, item) && |r.calls| >= 1
    // the toy client is asked exactly when the user is entitled
    ensures GetToy(item.toyId) in r.calls <==> Entitled(env, ctx)
    // the store is reached exactly when every check passes
    ensures StoreCalled(r.calls) <==> Entitled(env, ctx) && env.toy(item.toyId) == ToyOk
    // and then its answer, for the context's user, is returned unchanged
    ensures StoreCalled(r.calls) ==> r.result == env.storeAdd(item, ctx.id)
    // otherwise the first failing check decides the answer
    ensures ctx.Int64? && !StoreCalled(r.calls) ==>
      r.result == (if env.subscription(ctx.id) != Subscribed then NotSubscribedReply else ToyMissing)
  {
    match UserFromContext(ctx)
    case None => Outcome(InvalidUser, [])
    case Some(user) =>
      if env.subscription(user) != Subscribed then
        Outcome(NotSubscribedReply, [CheckSubscription(user)])
      else if env.toy(item.toyId) != ToyOk then
        Outcome(ToyMissing, [CheckSubscription(user), GetToy(item.toyId)])
      else
        assert AddPlan(user, item)[2].IsStoreCall();
        Outcome(env.storeAdd(item, user), AddPlan(user, item))
  }

  /** Removes a toy from the caller's cart; the toy client is not asked. */
  function DelFromCart(env: Collaborators, ctx: ContextValue, toyId: int): (r: Outcome<Reply>)
    ensures !ctx.Int64? ==> r == Outcome(InvalidUser, [])
    ensures ctx.Int64? ==> r.calls <= DelPlan(ctx.id, toyId) && |r.calls| >= 1
    ensures StoreCalled(r.calls) <==> Entitled(env, ctx)
    ensures StoreCalled(r.calls) ==> r.result == env.storeDel(toyId, ctx.id)
    ensures ctx.Int64? && !StoreCalled(r.calls) ==> r.result == NotSubscribedReply
  {
    match UserFromContext(ctx)
    case None => Outcome(InvalidUser, [])
    case Some(user) =>
      if env.subscription(user) != Subscribed then
        Outcome(NotSubscribedReply, [CheckSubscription(user)])
      else
        assert DelPlan(user, toyId)[1].IsStoreCall();
        Outcome(env.storeDel(toyId, user), DelPlan(user, toyId))
  }

  /** Reads the caller's cart. Identity and subscription failures give an
      empty list with zero totals; a nil list from the store gives a nil
      list with zero totals; anything else from the store is returned as it
      is. */
  function GetCart(env: Collaborators, ctx: ContextValue): (r: Outcome<CartRead>)
    ensures !ctx.Int64? ==> r == Outcome(EmptyRead, [])
    ensures ctx.Int64? ==> r.calls <= GetPlan(ctx.id) && |r.calls| >= 1
    ensures StoreCalled(r.calls) <==> Entitled(env, ctx)
    ensures !StoreCalled(r.calls) ==> r.result == EmptyRead
    ensures StoreCalled(r.calls) ==>
      r.result == (if env.storeGet(ctx.id).list.Nil? then CartRead(Nil, 0, 0) else env.storeGet(ctx.id))
  {
    match UserFromContext(ctx)
    case None => Outcome(EmptyRead, [])
    case Some(user) =>
      if env.subscription(user) != Subscribed then
        Outcome(EmptyRead, [CheckSubscription(user)])
      else
        var read := env.storeGet(user);
        assert GetPlan(user)[1].IsStoreCall();
        if read.list.Nil? then
          Outcome(CartRead(Nil, 0, 0), GetPlan(user))
        else
          Outcome(read, GetPlan(user))
  }

  /** The toy client is consulted on add but never on delete: an entitled
      user whose toy the toy client rejects cannot add it, yet a delete of
      the same toy reaches the store. */
  lemma ToyCheckedOnAddOnly(env: Collaborators, ctx: ContextValue, toyId: int, quantity: int)
    ensures forall c :: c in DelFromCart(env, ctx, toyId).calls ==> !c.GetToy?
    ensures Entitled(env, ctx) && env.toy(toyId) != ToyOk ==>
      && AddToCart(env, ctx, CartItem(toyId, quantity)).result == ToyMissing
      && !StoreCalled(AddToCart(env, ctx, CartItem(toyId, quantity)).calls)
      && StoreCalled(DelFromCart(env, ctx, toyId).calls)
  {
  }

  /** A caller without an identity, or without a subscription, gets
      INVALID_USER from add and delete and an empty cart from a read, and
      none of the three operations reaches the toy client or the store. */
  lemma UnentitledCallersChangeNothing(env: Collaborators, ctx: ContextValue, item: CartItem, toyId: int)
    requires !Entitled(env, ctx)
    ensures AddToCart(env, ctx, item).result.status == StatusInvalidUser
    ensures DelFromCart(env, ctx, toyId).result.status == StatusInvalidUser
    ensures GetCart(env, ctx).result == EmptyRead
    ensures forall c :: c in AddToCart(env, ctx, item).calls ==> c.CheckSubscription?
    ensures forall c :: c in DelFromCart(env, ctx, toyId).calls ==> c.CheckSubscription?
    ensures forall c :: c in GetCart(env, ctx).calls ==> c.CheckSubscription?
  {
  }

  /** A read returns a nil list only when the store itself did. With a store
      that never returns a nil list, such as the Postgres store, the nil
      branch of the read is unreachable, and a store failure reported as an
      empty list with zero totals reaches the caller as exactly the value an
      unidentified caller gets. */
  lemma NilOnlyFromStore(env: Collaborators, ctx: ContextValue)
    ensures GetCart(env, ctx).result.list.Nil? ==> Entitled(env, ctx) && env.storeGet(ctx.id).list.Nil?
    ensures (forall u :: env.storeGet(u).list.Items?) ==> GetCart(env, ctx).result.list.Items?
    ensures Entitled(env, ctx) && env.storeGet(ctx.id) == EmptyRead ==> GetCart(env, ctx).result == EmptyRead
  {
  }
}

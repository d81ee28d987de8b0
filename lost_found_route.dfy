/**
 * `/api/lost-found`: GET lists every item to anyone; POST lets any signed-in
 * caller report one, with no role check.
 */
module LostFoundRoute {
  import opened Wrappers
  import opened Session
  import opened Http
  import opened Query
  import opened LostFoundModel

  function CreatedAt(i: Item): int { i.createdAt }

  /** GET: every stored item, newest first; the request's cookie plays no part. */
  function Get(items: seq<Item>, dbUp: bool): (r: Response<seq<Item>>)
    ensures !dbUp ==> r == Uncaught
    ensures dbUp ==> r.Json? && r.status == 200
    ensures dbUp ==> NewestFirstOrder(r.value, CreatedAt) && multiset(r.value) == multiset(items)
  {
    if !dbUp then Uncaught else Json(200, NewestFirst(items, CreatedAt))
  }

  /** Every item a GET lists from a store that keeps the schema satisfies the schema. */
  lemma ListingOfValidStoreIsValid(store: ItemCollection)
    requires store.Valid()
    ensures forall x :: x in Get(store.items, true).value ==> ValidItem(x)
  {
    var r := Get(store.items, true).value;
    forall x | x in r
      ensures ValidItem(x)
    {
      assert multiset(r)[x] > 0;
      assert x in store.items;
    }
  }

  const Unauthorized: Response<Item> := Message(401, "Unauthorized")

  /**
   * The guard part of POST: no cookie answers 401; a cookie that fails
   * verification or a malformed body throws; otherwise the body goes on with
   * `createdBy` forced to the token's `id`, whatever the token's role.
   */
  function Guard(token: Option<string>, body: Option<ItemInput>, verify: Verifier,
                 dbUp: bool): (r: Result<ItemInput, Response<Item>>)
    ensures r == Failure(Unauthorized) <==> dbUp && !Truthy(token)
    ensures r.Failure? && r.error != Unauthorized ==> r.error == Uncaught
    ensures r.Success? <==> dbUp && VerifyCookie(token, verify).Valid? && body.Some?
    ensures r.Success? ==> r.value == body.value.(createdBy := VerifyCookie(token, verify).claims.id)
  {
    if !dbUp then Failure(Uncaught)
    else if !Truthy(token) then Failure(Unauthorized)
    else
      match verify(token.value)
      case Invalid => Failure(Uncaught)
      case Valid(decoded) =>
        if body.None? then Failure(Uncaught)
        else Success(body.value.(createdBy := decoded.id))
  }

  /**
   * POST: stores the item owned by the caller and answers with the default
   * status 200; on any failure nothing is stored.
   */
  method Post(store: ItemCollection, token: Option<string>, body: Option<ItemInput>,
              verify: Verifier, now: nat, dbUp: bool) returns (r: Response<Item>)
    requires store.Valid()
    modifies store
    ensures store.Valid()
    ensures Guard(token, body, verify, dbUp).Failure? ==>
              r == Guard(token, body, verify, dbUp).error && store.items == old(store.items)
    ensures Guard(token, body, verify, dbUp).Success? ==>
              var built := Build(Guard(token, body, verify, dbUp).value, now);
              if built.Success? then
                r == Json(200, built.value) && store.items == old(store.items) + [built.value]
              else
                r == Uncaught && store.items == old(store.items)
  {
    var guard := Guard(token, body, verify, dbUp);
    if guard.Failure? {
      return guard.error;
    }
    var created := store.Create(guard.value, now);
    if created.Failure? {
      return Uncaught;
    }
    return Json(200, created.value);
  }

  /** Any verified token may report an item: the outcome does not depend on the role. */
  lemma NoRoleCheck(token: string, body: Option<ItemInput>, v1: Verifier, v2: Verifier)
    requires token != "" && v1(token).Valid? && v2(token).Valid?
    requires v1(token).claims.id == v2(token).claims.id
    ensures Guard(Some(token), body, v1, true) == Guard(Some(token), body, v2, true)
  {
  }

  /** A created item belongs to the token's `id`, whatever `createdBy` the body carried. */
  lemma CreatorComesFromToken(token: string, body: ItemInput, verify: Verifier, now: nat)
    requires token != "" && verify(token).Valid?
    requires Build(Guard(Some(token), Some(body), verify, true).value, now).Success?
    ensures Build(Guard(Some(token), Some(body), verify, true).value, now).value.createdBy ==
            verify(token).claims.id
  {
  }
}

/** The HTTP handlers that take path parameters. A handler is a function from
    its parameters to the provider request it makes, `None` standing for an
    early return with no service call. */
module Controller {
  import opened Wrappers
  import opened Text
  import opened Provider
  import opened Service

  /** `!a.trim() || !b.trim() || ...`: the parameters are checked left to
      right and the test stops at the first blank one. */
  function AnyBlank(params: seq<string>): bool {
    if |params| == 0 then false
    else IsBlank(params[0]) || AnyBlank(params[1..])
  }

  /** The short-circuit chain is true exactly when some parameter is blank. */
  lemma {:induction false} AnyBlankIffSomeBlank(params: seq<string>)
    ensures AnyBlank(params) <==> exists i :: 0 <= i < |params| && IsBlank(params[i])
  {
    if |params| > 0 {
      var rest := params[1..];
      AnyBlankIffSomeBlank(rest);
      if AnyBlank(rest) {
        var k :| 0 <= k < |rest| && IsBlank(rest[k]);
        assert params[k + 1] == rest[k];
      }
      if exists i :: 0 <= i < |params| && IsBlank(params[i]) {
        var i :| 0 <= i < |params| && IsBlank(params[i]);
        if i > 0 {
          assert rest[i - 1] == params[i];
        }
      }
    }
  }

  /** Stopping at the first blank parameter does not change the answer: any
      reordering of the parameters gives the same verdict. */
  lemma AnyBlankOrderIndependent(params: seq<string>, reordered: seq<string>)
    requires multiset(params) == multiset(reordered)
    ensures AnyBlank(params) == AnyBlank(reordered)
  {
    AnyBlankIffSomeBlank(params);
    AnyBlankIffSomeBlank(reordered);
    if AnyBlank(params) {
      var i :| 0 <= i < |params| && IsBlank(params[i]);
      assert params[i] in multiset(reordered);
      var j :| 0 <= j < |reordered| && reordered[j] == params[i];
    }
    if AnyBlank(reordered) {
      var j :| 0 <= j < |reordered| && IsBlank(reordered[j]);
      assert reordered[j] in multiset(params);
      var i :| 0 <= i < |params| && params[i] == reordered[j];
    }
  }

  /** `updateSession`: forwards the three parameters, untrimmed and in order,
      exactly when none of them is blank. */
  function UpdateSession(subscriptionId: string, itemId: string, newPriceId: string): (r: Option<Request>)
    ensures r.Some? <==> !AllWhitespace(subscriptionId) && !AllWhitespace(itemId) && !AllWhitespace(newPriceId)
    ensures r.Some? ==> r.value == Update(subscriptionId, [ItemUpdate(itemId, newPriceId)], CreateProrations)
  {
    if IsBlank(subscriptionId) || IsBlank(itemId) || IsBlank(newPriceId) then None
    else Some(UpdateSubscription(subscriptionId, itemId, newPriceId))
  }

  /** The handler's three-way guard is the general left-to-right chain over
      its parameters in source order, so its verdict is "some parameter is
      blank" whatever the order of the tests. */
  lemma UpdateGuardIsAnyBlank(subscriptionId: string, itemId: string, newPriceId: string)
    ensures UpdateSession(subscriptionId, itemId, newPriceId).None? <==> AnyBlank([subscriptionId, itemId, newPriceId])
  {
    var params := [subscriptionId, itemId, newPriceId];
    assert params[1..] == [itemId, newPriceId];
    assert [itemId, newPriceId][1..] == [newPriceId];
    assert [newPriceId][1..] == [];
    assert AnyBlank([newPriceId]) == IsBlank(newPriceId);
    assert AnyBlank([itemId, newPriceId]) == (IsBlank(itemId) || IsBlank(newPriceId));
    assert AnyBlank(params) == (IsBlank(subscriptionId) || IsBlank(itemId) || IsBlank(newPriceId));
  }

  /** `cancelSubscription`: forwards the untrimmed id exactly when it is not
      blank. */
  function CancelSubscriptionRoute(subscriptionId: string): (r: Option<Request>)
    ensures r.Some? <==> !AllWhitespace(subscriptionId)
    ensures r.Some? ==> r.value == Cancel(subscriptionId)
  {
    if IsBlank(subscriptionId) then None
    else Some(CancelSubscription(subscriptionId))
  }

  /** `createSessionStripe`: no parameters, no check. */
  function CreateSessionRoute(page: seq<Price>): (r: Request)
    ensures r.CreateSession?
    ensures r.payload.None? <==> !HasFree(page) || !HasPaid(page)
  {
    CreateStripeSession(page)
  }

  /** `createSessionStripeWithId`: the customer id goes to the service as it
      came, blank or not. */
  function CreateSessionWithIdRoute(page: seq<Price>, customerId: string): (r: Request)
    ensures r.CreateSession?
    ensures r.payload.None? <==> !HasFree(page) || !HasPaid(page)
    ensures r.payload.Some? ==> CustomerKey in r.payload.value && r.payload.value[CustomerKey] == Str(customerId)
  {
    CreateStripeSessionWithCustomerId(page, customerId)
  }

}

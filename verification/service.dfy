/** The service's decisions around its provider calls: choosing the free and
    paid prices, building the checkout-session payload, and shaping the
    create, cancel and update requests. Each provider call is represented by
    the `Request` value it would be issued with. */
module Service {
  import opened Wrappers
  import opened Sequences
  import opened Provider

  datatype LineItem = LineItem(price: string, quantity: int)

  /** The values a session-creation payload holds. */
  datatype Value = Str(s: string) | Num(n: int) | Items(items: seq<LineItem>)

  /** A session-creation payload: field name to value. */
  type Payload = map<string, Value>

  const BillingAddressCollectionKey := "billing_address_collection"
  const LineItemsKey := "line_items"
  const ModeKey := "mode"
  const SuccessUrlKey := "success_url"
  const CancelUrlKey := "cancel_url"
  const CustomerKey := "customer"

  const SuccessUrl := "https://accesssecurity.com.br/"
  const CancelUrl := "https://sitedefender.com.br/"
  const CreateProrations := "create_prorations"

  datatype ItemUpdate = ItemUpdate(id: string, price: string)

  /** A call the service makes on the provider. */
  datatype Request =
    | CreateSession(payload: Option<Payload>)
    | Cancel(subscriptionId: string)
    | Update(subscriptionId: string, items: seq<ItemUpdate>, prorationBehavior: string)

  /** The payload field names are pairwise distinct keys. */
  lemma FieldNamesDistinct()
    ensures BillingAddressCollectionKey != LineItemsKey && BillingAddressCollectionKey != ModeKey && BillingAddressCollectionKey != SuccessUrlKey && BillingAddressCollectionKey != CancelUrlKey && BillingAddressCollectionKey != CustomerKey
    ensures LineItemsKey != ModeKey && LineItemsKey != SuccessUrlKey && LineItemsKey != CancelUrlKey && LineItemsKey != CustomerKey
    ensures ModeKey != SuccessUrlKey && ModeKey != CancelUrlKey && ModeKey != CustomerKey
    ensures SuccessUrlKey != CancelUrlKey && SuccessUrlKey != CustomerKey
    ensures CancelUrlKey != CustomerKey
  {
    assert LineItemsKey[0] != CancelUrlKey[0];
  }

  /** `unit_amount === 0`. */
  predicate IsFree(p: PriceView) { p.unitAmount == Some(0) }

  /** `unit_amount !== 0`; a null amount is not `=== 0`, so it is paid. */
  predicate IsPaid(p: PriceView) { p.unitAmount != Some(0) }

  /** `page[i]` is the first price of the page whose amount is 0. */
  ghost predicate FirstFree(page: seq<Price>, i: int) {
    0 <= i < |page| && page[i].unitAmount == Some(0)
    && forall j :: 0 <= j < i ==> page[j].unitAmount != Some(0)
  }

  /** `page[i]` is the first price of the page whose amount is not 0 (or null). */
  ghost predicate FirstPaid(page: seq<Price>, i: int) {
    0 <= i < |page| && page[i].unitAmount != Some(0)
    && forall j :: 0 <= j < i ==> page[j].unitAmount == Some(0)
  }

  ghost predicate HasFree(page: seq<Price>) {
    exists i :: 0 <= i < |page| && page[i].unitAmount == Some(0)
  }

  ghost predicate HasPaid(page: seq<Price>) {
    exists i :: 0 <= i < |page| && page[i].unitAmount != Some(0)
  }

  /** Some line item of some field of `p` refers to price `priceId`. */
  ghost predicate References(p: Payload, priceId: string) {
    exists k :: k in p && p[k].Items? && exists i :: 0 <= i < |p[k].items| && p[k].items[i].price == priceId
  }

  datatype Selection = Selection(free: PriceView, paid: PriceView)

  /** `prices.find((price) => price.unit_amount === 0)` over the projected
      page finds the page's first free price. */
  lemma FindFreeOnPage(page: seq<Price>)
    ensures var r := Find(ListPrices(page), IsFree);
      && (r.Some? <==> HasFree(page))
      && (r.Some? ==> exists i :: FirstFree(page, i) && r.value == ViewOfPrice(page[i]))
  {
    var prices := ListPrices(page);
    match FindIndex(prices, IsFree)
    case None =>
    case Some(i) =>
      assert FirstFree(page, i);
  }

  /** `prices.find((price) => price.unit_amount !== 0)` over the projected
      page finds the page's first paid price. */
  lemma FindPaidOnPage(page: seq<Price>)
    ensures var r := Find(ListPrices(page), IsPaid);
      && (r.Some? <==> HasPaid(page))
      && (r.Some? ==> exists j :: FirstPaid(page, j) && r.value == ViewOfPrice(page[j]))
  {
    var prices := ListPrices(page);
    match FindIndex(prices, IsPaid)
    case None =>
    case Some(j) =>
      assert FirstPaid(page, j);
  }

  /** The two `find` calls: the first free and the first paid price of the
      projected list, present only when both exist. */
  function SelectPrices(page: seq<Price>): (r: Option<Selection>)
    ensures r.Some? <==> HasFree(page) && HasPaid(page)
    ensures r.Some? ==> exists i :: FirstFree(page, i) && r.value.free == ViewOfPrice(page[i])
    ensures r.Some? ==> exists j :: FirstPaid(page, j) && r.value.paid == ViewOfPrice(page[j])
  {
    var prices := ListPrices(page);
    var free := Find(prices, IsFree);
    var paid := Find(prices, IsPaid);
    FindFreeOnPage(page);
    FindPaidOnPage(page);
    if free.None? || paid.None? then None
    else Some(Selection(free.value, paid.value))
  }

  /** The fixed payload around the free price, before any override. */
  function BasePayload(freePriceId: string): Payload {
    map[
      BillingAddressCollectionKey := Str("auto"),
      LineItemsKey := Items([LineItem(freePriceId, 1)]),
      ModeKey := Str("subscription"),
      SuccessUrlKey := Str(SuccessUrl),
      CancelUrlKey := Str(CancelUrl)
    ]
  }

  /** The base payload's fields and their values. */
  lemma BasePayloadShape(freePriceId: string)
    ensures var p := BasePayload(freePriceId);
      && p.Keys == {BillingAddressCollectionKey, LineItemsKey, ModeKey, SuccessUrlKey, CancelUrlKey}
      && p[BillingAddressCollectionKey] == Str("auto")
      && p[ModeKey] == Str("subscription")
      && p[SuccessUrlKey] == Str(SuccessUrl)
      && p[CancelUrlKey] == Str(CancelUrl)
      && p[LineItemsKey] == Items([LineItem(freePriceId, 1)])
  {
    FieldNamesDistinct();
  }

  /** Object spread `{...base, ...overrides}`: shallow, and the override wins. */
  function Merge(base: Payload, overrides: Payload): (r: Payload)
    ensures r.Keys == base.Keys + overrides.Keys
    ensures forall k :: k in overrides ==> r[k] == overrides[k]
    ensures forall k :: k in base && k !in overrides ==> r[k] == base[k]
  {
    base + overrides
  }

  /** `stripeSessionCreationOption`: nothing unless the page has both a free
      and a paid price; otherwise the base payload around the first free
      price with `extraArgs ?? {}` spread over it. */
  function SessionCreationOption(page: seq<Price>, extraArgs: Option<Payload>): (r: Option<Payload>)
    ensures r.Some? <==> HasFree(page) && HasPaid(page)
  {
    match SelectPrices(page)
    case None => None
    case Some(sel) => Some(Merge(BasePayload(sel.free.id), extraArgs.OrElse(map[])))
  }

  /** `createStripeSession`: a create request is issued whatever the builder
      returned, so a page without a free or paid price yields a create request
      carrying nothing. */
  function CreateStripeSession(page: seq<Price>): (r: Request)
    ensures r.CreateSession?
    ensures r.payload.None? <==> !HasFree(page) || !HasPaid(page)
  {
    CreateSession(SessionCreationOption(page, None))
  }

  /** The override `createStripeSessionWithCustomerId` passes. */
  function CustomerOverride(customerId: string): Payload {
    map[CustomerKey := Str(customerId)]
  }

  /** `createStripeSessionWithCustomerId`: as `createStripeSession`, with the
      customer id merged in; the id is not checked. */
  function CreateStripeSessionWithCustomerId(page: seq<Price>, customerId: string): (r: Request)
    ensures r.CreateSession?
    ensures r.payload.None? <==> !HasFree(page) || !HasPaid(page)
    ensures r.payload.Some? ==> CustomerKey in r.payload.value && r.payload.value[CustomerKey] == Str(customerId)
  {
    CreateSession(SessionCreationOption(page, Some(CustomerOverride(customerId))))
  }

  /** `cancelSubscription`: the cancel request for exactly the given id. */
  function CancelSubscription(subscriptionId: string): (r: Request)
    ensures r.Cancel? && r.subscriptionId == subscriptionId
  {
    Cancel(subscriptionId)
  }

  /** `updateSubscription`: retarget one item of the subscription to a new
      price, always creating prorations. */
  function UpdateSubscription(subscriptionId: string, itemId: string, newPriceId: string): (r: Request)
    ensures r.Update? && r.subscriptionId == subscriptionId
    ensures r.items == [ItemUpdate(itemId, newPriceId)]
    ensures r.prorationBehavior == CreateProrations
  {
    Update(subscriptionId, [ItemUpdate(itemId, newPriceId)], CreateProrations)
  }

  /** Two first-free positions of one page coincide. */
  lemma FirstFreeUnique(page: seq<Price>, i: int, i': int)
    requires FirstFree(page, i) && FirstFree(page, i')
    ensures i == i'
  {
  }

  /** When both prices exist, the builder's payload is the base payload around
      the page's first free price with the overrides spread over it. */
  lemma BuilderAtFirstFree(page: seq<Price>, extraArgs: Option<Payload>)
    requires HasFree(page) && HasPaid(page)
    ensures exists i :: (FirstFree(page, i)
      && SessionCreationOption(page, extraArgs) == Some(Merge(BasePayload(page[i].id), extraArgs.OrElse(map[]))))
  {
    var sel := SelectPrices(page).value;
    var i :| FirstFree(page, i) && sel.free == ViewOfPrice(page[i]);
    assert SessionCreationOption(page, extraArgs) == Some(Merge(BasePayload(page[i].id), extraArgs.OrElse(map[])));
  }

  /** Spreading nothing over a payload leaves it as it was. */
  lemma MergeNothing(base: Payload)
    ensures Merge(base, map[]) == base
  {
  }

  /** Without overrides the payload holds exactly the five fixed fields, with
      the first free price as its one line item of quantity 1. */
  lemma BuilderFixedFields(page: seq<Price>)
    requires HasFree(page) && HasPaid(page)
    ensures var p := SessionCreationOption(page, None).value;
      && p.Keys == {BillingAddressCollectionKey, LineItemsKey, ModeKey, SuccessUrlKey, CancelUrlKey}
      && p[BillingAddressCollectionKey] == Str("auto")
      && p[ModeKey] == Str("subscription")
      && p[SuccessUrlKey] == Str(SuccessUrl)
      && p[CancelUrlKey] == Str(CancelUrl)
      && exists i :: FirstFree(page, i) && p[LineItemsKey] == Items([LineItem(page[i].id, 1)])
  {
    BuilderAtFirstFree(page, None);
    var i :| FirstFree(page, i)
      && SessionCreationOption(page, None) == Some(Merge(BasePayload(page[i].id), map[]));
    MergeNothing(BasePayload(page[i].id));
    BasePayloadShape(page[i].id);
  }

  /** Unless an override replaces it, the payload's line items are exactly one
      line of quantity 1 for the first free price of the page. */
  lemma LineItemIsFirstFree(page: seq<Price>, extraArgs: Option<Payload>)
    requires HasFree(page) && HasPaid(page)
    requires LineItemsKey !in extraArgs.OrElse(map[])
    ensures exists i :: (FirstFree(page, i)
      && SessionCreationOption(page, extraArgs).value[LineItemsKey] == Items([LineItem(page[i].id, 1)]))
  {
    BuilderAtFirstFree(page, extraArgs);
    var i :| FirstFree(page, i)
      && SessionCreationOption(page, extraArgs) == Some(Merge(BasePayload(page[i].id), extraArgs.OrElse(map[])));
    BasePayloadShape(page[i].id);
  }

  /** The base payload's one price reference is its free price. */
  lemma BaseReferencesOnlyFree(freePriceId: string, id: string)
    ensures References(BasePayload(freePriceId), id) <==> id == freePriceId
  {
    var p := BasePayload(freePriceId);
    BasePayloadShape(freePriceId);
    if id == freePriceId {
      assert p[LineItemsKey].items[0].price == id;
    }
  }

  /** Without overrides the payload refers to the page's first free price and
      to no other price. */
  lemma OnlyFreePriceReferenced(page: seq<Price>)
    requires HasFree(page) && HasPaid(page)
    ensures exists i :: (FirstFree(page, i)
      && forall id :: References(SessionCreationOption(page, None).value, id) <==> id == page[i].id)
  {
    BuilderAtFirstFree(page, None);
    var i :| FirstFree(page, i)
      && SessionCreationOption(page, None) == Some(Merge(BasePayload(page[i].id), map[]));
    MergeNothing(BasePayload(page[i].id));
    forall id ensures References(SessionCreationOption(page, None).value, id) <==> id == page[i].id {
      BaseReferencesOnlyFree(page[i].id, id);
    }
  }

  /** The selected paid price only gates the build: the payload built without
      overrides does not refer to the first paid price unless it shares the
      first free price's id. */
  lemma PaidPriceNotReferenced(page: seq<Price>, i: int, j: int)
    requires FirstFree(page, i) && FirstPaid(page, j) && page[i].id != page[j].id
    ensures SessionCreationOption(page, None).Some?
    ensures !References(SessionCreationOption(page, None).value, page[j].id)
  {
    OnlyFreePriceReferenced(page);
    var i' :| FirstFree(page, i')
      && forall id :: References(SessionCreationOption(page, None).value, id) <==> id == page[i'].id;
    FirstFreeUnique(page, i, i');
  }

  /** Overrides are merged shallowly over the payload built without them:
      every override field takes the override's value, every other field keeps
      its value, and nothing else changes. */
  lemma OverridesWin(page: seq<Price>, overrides: Payload)
    requires HasFree(page) && HasPaid(page)
    ensures var base := SessionCreationOption(page, None).value;
      var merged := SessionCreationOption(page, Some(overrides)).value;
      && merged.Keys == base.Keys + overrides.Keys
      && (forall k :: k in overrides ==> merged[k] == overrides[k])
      && (forall k :: k in base && k !in overrides ==> merged[k] == base[k])
  {
    BuilderAtFirstFree(page, None);
    var i :| FirstFree(page, i)
      && SessionCreationOption(page, None) == Some(Merge(BasePayload(page[i].id), map[]));
    BuilderAtFirstFree(page, Some(overrides));
    var i' :| FirstFree(page, i')
      && SessionCreationOption(page, Some(overrides)) == Some(Merge(BasePayload(page[i'].id), overrides));
    FirstFreeUnique(page, i, i');
    MergeNothing(BasePayload(page[i].id));
  }

  /** Spreading `{customer: id}` sets that one field. */
  lemma MergeCustomer(base: Payload, customerId: string)
    ensures Merge(base, CustomerOverride(customerId)) == base[CustomerKey := Str(customerId)]
  {
  }

  /** Binding a customer adds the `customer` field and changes nothing else:
      the payload equals the anonymous one plus `customer = customerId`, and
      both are absent together. */
  lemma CustomerOverrideOnlyAddsCustomer(page: seq<Price>, customerId: string)
    ensures var anonymous := CreateStripeSession(page).payload;
      var bound := CreateStripeSessionWithCustomerId(page, customerId).payload;
      && (anonymous.None? <==> bound.None?)
      && (bound.Some? ==> bound.value == anonymous.value[CustomerKey := Str(customerId)])
  {
    if HasFree(page) && HasPaid(page) {
      BuilderAtFirstFree(page, None);
      var i :| FirstFree(page, i)
        && SessionCreationOption(page, None) == Some(Merge(BasePayload(page[i].id), map[]));
      BuilderAtFirstFree(page, Some(CustomerOverride(customerId)));
      var i' :| FirstFree(page, i')
        && SessionCreationOption(page, Some(CustomerOverride(customerId)))
           == Some(Merge(BasePayload(page[i'].id), CustomerOverride(customerId)));
      FirstFreeUnique(page, i, i');
      MergeNothing(BasePayload(page[i].id));
      MergeCustomer(BasePayload(page[i].id), customerId);
    }
  }

  /** The customer-bound payload does not refer to the first paid price either,
      unless that price shares the first free price's id. */
  lemma BoundPaidNotReferenced(page: seq<Price>, i: int, j: int, customerId: string)
    requires FirstFree(page, i) && FirstPaid(page, j) && page[i].id != page[j].id
    ensures CreateStripeSessionWithCustomerId(page, customerId).payload.Some?
    ensures !References(CreateStripeSessionWithCustomerId(page, customerId).payload.value, page[j].id)
  {
    PaidPriceNotReferenced(page, i, j);
    CustomerOverrideOnlyAddsCustomer(page, customerId);
  }
}

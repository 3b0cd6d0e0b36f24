/** Billing records as the payment provider returns them in one list page,
    and the listing projections the service applies to each page. A page is
    an input here: fetching it is a call into the provider's SDK. */
module Provider {
  import opened Wrappers
  import opened Sequences

  // The records carry a few fields beyond the ones the service reads; they
  // are there to show what each listing projection drops.

  /** A price; `unitAmount` is in the smallest currency unit and may be null.
      The price list is requested with its product expanded, so `product` is
      the product record rather than its id. */
  datatype Price = Price(id: string, unitAmount: Option<int>, currency: string, active: bool, product: Product)

  datatype CheckoutSession = CheckoutSession(id: string, status: Option<string>, customer: Option<string>, url: Option<string>)

  datatype Customer = Customer(id: string, name: Option<string>, email: Option<string>)

  datatype Product = Product(id: string, name: string, active: bool)

  datatype SubscriptionItem = SubscriptionItem(id: string, price: string, quantity: int)

  /** `trialEnd` is a nullable timestamp; `items` is the first page of the subscription's items. */
  datatype Subscription = Subscription(id: string, status: string, trialEnd: Option<int>, customer: string, items: seq<SubscriptionItem>)

  // The field subsets the listing endpoints return.
  datatype PriceView = PriceView(id: string, unitAmount: Option<int>)
  datatype SessionView = SessionView(id: string, status: Option<string>)
  datatype CustomerView = CustomerView(id: string, name: Option<string>)
  datatype ProductView = ProductView(id: string, name: string)
  datatype ItemView = ItemView(id: string)
  datatype SubscriptionView = SubscriptionView(id: string, status: string, trialEnd: Option<int>, items: seq<ItemView>)

  function ViewOfPrice(p: Price): PriceView { PriceView(p.id, p.unitAmount) }
  function ViewOfSession(s: CheckoutSession): SessionView { SessionView(s.id, s.status) }
  function ViewOfCustomer(c: Customer): CustomerView { CustomerView(c.id, c.name) }
  function ViewOfProduct(p: Product): ProductView { ProductView(p.id, p.name) }
  function ViewOfItem(i: SubscriptionItem): ItemView { ItemView(i.id) }
  function ViewOfSubscription(s: Subscription): SubscriptionView {
    SubscriptionView(s.id, s.status, s.trialEnd, MapSeq(ViewOfItem, s.items))
  }

  /** `listPrices`: one `{id, unit_amount}` per price, in page order. */
  function ListPrices(page: seq<Price>): (r: seq<PriceView>)
    ensures |r| == |page|
    ensures forall i :: 0 <= i < |page| ==> r[i].id == page[i].id && r[i].unitAmount == page[i].unitAmount
  {
    MapSeq(ViewOfPrice, page)
  }

  /** `listSessions`: one `{id, status}` per checkout session, in page order. */
  function ListSessions(page: seq<CheckoutSession>): (r: seq<SessionView>)
    ensures |r| == |page|
    ensures forall i :: 0 <= i < |page| ==> r[i].id == page[i].id && r[i].status == page[i].status
  {
    MapSeq(ViewOfSession, page)
  }

  /** `listClients`: one `{id, name}` per customer, in page order. */
  function ListClients(page: seq<Customer>): (r: seq<CustomerView>)
    ensures |r| == |page|
    ensures forall i :: 0 <= i < |page| ==> r[i].id == page[i].id && r[i].name == page[i].name
  {
    MapSeq(ViewOfCustomer, page)
  }

  /** `listProducts`: one `{id, name}` per product, in page order. */
  function ListProducts(page: seq<Product>): (r: seq<ProductView>)
    ensures |r| == |page|
    ensures forall i :: 0 <= i < |page| ==> r[i].id == page[i].id && r[i].name == page[i].name
  {
    MapSeq(ViewOfProduct, page)
  }

  /** `listSubscription`: one `{id, status, trial_end, items}` per subscription,
      in page order, each `items` listing the ids of the subscription's items
      in their order. */
  function ListSubscriptions(page: seq<Subscription>): (r: seq<SubscriptionView>)
    ensures |r| == |page|
    ensures forall i :: 0 <= i < |page| ==>
      && r[i].id == page[i].id && r[i].status == page[i].status && r[i].trialEnd == page[i].trialEnd
      && |r[i].items| == |page[i].items|
      && forall j :: 0 <= j < |page[i].items| ==> r[i].items[j].id == page[i].items[j].id
  {
    MapSeq(ViewOfSubscription, page)
  }

}

# stripe-back: checkout-session and subscription-mutation core

A model of the decisions in a small NestJS back end that sits in front of the
Stripe API. The service lists prices, checkout sessions, customers, products
and subscriptions; builds checkout-session payloads; and cancels or updates
subscriptions. The controller exposes these as GET routes. Two of them,
`updateSession` and `cancelSubscription`, check that their path parameters are
not blank; `createSession/:cus_id` forwards its customer id unchecked.

Every Stripe SDK call is represented by data, not by a call:

- a list call becomes an input page (`seq<Price>`, `seq<Subscription>`, ...);
- a mutating call becomes the `Service.Request` value it would be issued with
  (`CreateSession(payload)`, `Cancel(id)`, `Update(id, items, proration)`).

A handler with path parameters is a function from its strings to
`Option<Request>`. `None` stands for the early `return` that makes no service
call.

Modules:

- `Wrappers`: `Option`, used for the source's `undefined` and `null`.
- `Sequences`: `find` (`FindIndex`, `Find`) and `map` (`MapSeq`) over sequences.
- `Text`: `String.prototype.trim`. `IsWhitespace` is the ECMAScript WhiteSpace
  and LineTerminator set. `IsBlank(s)` is `!s.trim()`.
- `Provider`: the provider's records and the five listing projections.
- `Service`: price selection, the session payload builder, the shallow override
  merge, and the create, cancel and update requests.
- `Controller`: the blank-parameter guards and the forwarding routes.

A null `unit_amount` is `None`. It is not `=== 0`, so such a price counts as
paid.

When the price page lacks a free or a paid price, the builder returns nothing.
Both session-creation entry points still issue the create request with that
empty value. The model keeps this: the result is `CreateSession(None)`, not the
absence of a request.

## Model

| member | source | states |
|---|---|---|
| Sequences.FindIndex | src/app.service.ts:87-88 | the index returned is the first one whose element satisfies the predicate; none is returned exactly when no element does |
| Sequences.Find | src/app.service.ts:87-88 | `find` returns the element at the first matching position; it returns nothing exactly when no element matches |
| Sequences.MapSeq | src/app.service.ts:33 | `map` keeps the length, and element i of the result is the function applied to element i |
| Text.TrimStart | src/app.controller.ts:60-62 | the result is a suffix; every dropped character is whitespace; a non-empty result does not start with whitespace |
| Text.TrimEnd | src/app.controller.ts:60-62 | the result is a prefix; every dropped character is whitespace; a non-empty result does not end with whitespace |
| Text.Trim | src/app.controller.ts:60-62 | the input is whitespace, then the result, then whitespace; a non-empty result neither starts nor ends with whitespace |
| Text.TrimEmptyIffAllWhitespace | src/app.controller.ts:59-63 | trimming gives the empty string if and only if every character is whitespace |
| Text.IsBlank | src/app.controller.ts:78 | `!s.trim()` holds exactly when `s` is empty or all whitespace |
| Provider.ListPrices | src/app.service.ts:33 | one `{id, unit_amount}` per price, with the same length and order, and id and amount copied from the same position |
| Provider.ListSessions | src/app.service.ts:42 | one `{id, status}` per session, with the same length and order, and fields copied from the same position |
| Provider.ListClients | src/app.service.ts:51 | one `{id, name}` per customer, with the same length and order, and fields copied from the same position |
| Provider.ListProducts | src/app.service.ts:60 | one `{id, name}` per product, with the same length and order, and fields copied from the same position |
| Provider.ListSubscriptions | src/app.service.ts:69-76 | one view per subscription, in order, with id, status and trial_end copied; each `items` list has the same length and ids as the source item list |
| Service.IsFree | src/app.service.ts:87 | the callback `unit_amount === 0`; characterized on a page by `FindFreeOnPage` |
| Service.IsPaid | src/app.service.ts:88 | the callback `unit_amount !== 0`, true for a null amount; characterized on a page by `FindPaidOnPage` |
| Service.FindFreeOnPage | src/app.service.ts:85-87 | `find` for `unit_amount === 0` over the projected list succeeds exactly when the page has a free price, and returns the first one |
| Service.FindPaidOnPage | src/app.service.ts:85-88 | `find` for `unit_amount !== 0` over the projected list succeeds exactly when the page has a price whose amount is not 0 or is null, and returns the first one |
| Service.SelectPrices | src/app.service.ts:85-91 | a selection exists if and only if the page has a price with amount 0 and one without; the free price is the first with amount 0, and the paid price is the first whose amount is not 0 or is null |
| Service.BasePayload | src/app.service.ts:93-104 | the object literal before the spread; characterized by `BasePayloadShape` and `BaseReferencesOnlyFree` |
| Service.BasePayloadShape | src/app.service.ts:93-104 | the base payload has exactly the five fixed fields with their constant values and one line item (free price, quantity 1) |
| Service.Merge | src/app.service.ts:105 | spread merge: the keys are the union; an override key takes the override's value; every other base key keeps its value |
| Service.SessionCreationOption | src/app.service.ts:84-108 | a payload is returned if and only if the page has both a free and a paid price |
| Service.BuilderAtFirstFree | src/app.service.ts:84-108 | when both prices exist, the payload is the base payload around the page's first free price with the overrides spread over it |
| Wrappers.Option.OrElse | src/app.service.ts:105 | `extraArgs ?? {}`; with no overrides it yields the empty map, which `MergeNothing` shows leaves the base payload unchanged |
| Service.MergeNothing | src/app.service.ts:105 | spreading `extraArgs ?? {}` with no overrides leaves the base payload unchanged |
| Service.BuilderFixedFields | src/app.service.ts:93-104 | without overrides, the payload is exactly `billing_address_collection = auto`, `mode = subscription`, the two redirect URLs, and one line item for the first free price with quantity 1 |
| Service.LineItemIsFirstFree | src/app.service.ts:96-101 | unless an override replaces `line_items`, the payload's line items are one line, quantity 1, for the first free price of the page |
| Service.BaseReferencesOnlyFree | src/app.service.ts:96-101 | the base payload refers to a price id if and only if it is the free price's id |
| Service.OnlyFreePriceReferenced | src/app.service.ts:87-101 | without overrides the payload refers to a price id if and only if it is the first free price's id |
| Service.BoundPaidNotReferenced | src/app.service.ts:96-101 | the customer-bound payload exists and does not refer to the first paid price, unless that price shares the first free price's id |
| Service.PaidPriceNotReferenced | src/app.service.ts:87-101 | the payload built without overrides exists and does not refer to the first paid price, unless that price shares the first free price's id |
| Service.FirstFreeUnique | src/app.service.ts:87 | the first free position of a page is unique |
| Service.OverridesWin | src/app.service.ts:105 | with overrides, the payload is the no-override payload with every override key set to the override's value and every other field unchanged |
| Service.CustomerOverride | src/app.service.ts:126 | the override `{customer: customerID}`; characterized by `MergeCustomer` and `CustomerOverrideOnlyAddsCustomer` |
| Service.MergeCustomer | src/app.service.ts:105 | spreading `{customer: id}` over a payload sets that one field and keeps every other |
| Service.CustomerOverrideOnlyAddsCustomer | src/app.service.ts:123-127 | the customer-bound payload exists exactly when the anonymous one does, and equals it plus `customer = id` |
| Service.CreateStripeSession | src/app.service.ts:111-120 | a create request is always issued; its payload is empty exactly when the page lacks a free or a paid price |
| Service.CreateStripeSessionWithCustomerId | src/app.service.ts:123-134 | a create request is always issued; its payload is empty exactly when a price is missing; otherwise it carries `customer` = the given id |
| Service.CancelSubscription | src/app.service.ts:159-163 | the cancel request names exactly the given subscription id |
| Service.UpdateSubscription | src/app.service.ts:165-177 | the update request targets the given subscription, carries the single item `{id: item, price: new price}`, and fixes proration to `create_prorations` |
| Controller.AnyBlank | src/app.controller.ts:59-63 | the left-to-right short-circuit chain of blank tests; characterized by `AnyBlankIffSomeBlank` and `AnyBlankOrderIndependent` |
| Controller.AnyBlankIffSomeBlank | src/app.controller.ts:59-63 | the left-to-right short-circuit `||` of the blank tests is true exactly when some parameter is blank |
| Controller.AnyBlankOrderIndependent | src/app.controller.ts:59-63 | the guard's verdict does not depend on the order in which the parameters are checked |
| Controller.UpdateGuardIsAnyBlank | src/app.controller.ts:59-64 | `updateSession` returns nothing exactly when the short-circuit chain over (subscription, item, price) finds a blank parameter |
| Controller.UpdateSession | src/app.controller.ts:52-71 | forwards if and only if all three parameters are non-blank; it then issues the update for the untrimmed subscription, item and price, in that order |
| Controller.CancelSubscriptionRoute | src/app.controller.ts:73-84 | forwards if and only if the id is non-blank; it then issues the cancel request for the untrimmed id |
| Controller.CreateSessionRoute | src/app.controller.ts:40-44 | always issues a create request, empty exactly when a price is missing |
| Controller.CreateSessionWithIdRoute | src/app.controller.ts:46-49 | always issues a create request for any customer id, blank ones included; a non-empty payload carries that id unchanged |

## Left out

- Stripe SDK calls (`prices.list`, `checkout.sessions.create`, `subscriptions.update` and `cancel`, and the other list calls). They are network calls to a foreign service. Pages are inputs, mutations are `Request` values, and the provider's responses are not modelled.
- Pagination: each listing sees the single page it is given, as the source does.
- Provider failures, such as an unknown id or an already canceled subscription. They arrive as rejections from the remote service, which the model does not contain.
- `onModuleInit` and the `STRIPE_KEY` configuration lookup (src/app.service.ts:12-16). This is credential plumbing.
- `printData` and the `print` flag of the listings (src/app.service.ts:18-22). This is console logging and has no effect on returned data.
- `createStripeSessionNoCard` (src/app.service.ts:136-155). No route calls it.
- NestJS decorators, routing and `async`/`await`. The handlers are pure functions of their parameters.
- The list routes of the controller (src/app.controller.ts:12-35) return the service's result unchanged, so they add nothing to the `Provider` listings.
- Service.SessionCreationOption: `extraArgs` is typed `any` in the source. Here it is a payload whose values are strings, integers or line-item lists. The only override passed is `{customer: id}`.
- Service.SessionCreationOption: `expand: ["data.product"]` on the price list only changes the provider's response, so it is not modelled.

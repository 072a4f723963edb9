# Subscription bookkeeping of vulcan-stripe-subscriptions, in Dafny

This project models the server side of a Vulcan (Meteor) package that sells
subscriptions through Stripe. The server keeps three pieces of state:

- the **Charges** collection: one record per Stripe subscription, in store order;
- the **Users**: each has a `groups` list and a `stripeCustomerId`;
- the **associated documents**: each has a `chargeIds` list.

Everything else is Stripe, and Stripe is not modelled. Each Stripe endpoint is
an arbitrary function from its request to its answer (the `Stripe` datatype in
`remote.dfy`). Every operation also returns the list of Stripe calls it made,
so "no call is made" and "called with these arguments" can be stated.

Each operation that changes the store comes in two parts:

- a function over a `State` value (`...Spec`), which carries the contracts and lemmas;
- a method over the `Database` class that takes the same steps in the same order.

The method's postcondition equates its new snapshot, result and calls with the function.

| file | module | models |
|---|---|---|
| records.dfy | Records | the records: Stripe snapshots, charges, users, documents, failures |
| remote.dfy | Remote | the Stripe endpoints the server calls, and the call log |
| store.dfy | Store | the store and its two queries: by Stripe id, and by user, status and kind |
| entitlement.dfy | Entitlement | `updateSubscriptionStatus`, the status → groups edit |
| charges_collection.dfy | ChargesCollection | `checkAccess`, the default sort, create/update with the callback |
| reconciler.dfy | Reconciler | `vulcanUpdateSubscription`, `vulcanInsertNewSubscription`, `vulcanCancelSubscription` |
| webhooks.dfy | Webhooks | the `/webhook` endpoint and its three handlers |
| subscription_commands.dfy | SubscriptionCommands | create, retry and cancel a subscription |
| stripe_customer.dfy | StripeCustomer | `getStripeCustomerId`, `createStripeCustomer` |
| resolvers.dfy | Resolvers | the four GraphQL mutations, including `isSubscriptionActive` |
| custom_fields.dfy | CustomFields | the `subscription` field on users |

## Behaviour kept as the code has it

- **Dashboard URL.** It is built as `https://dashboard.stripe.com/${!livemode && 'test/'}subscriptions/<id>`. In live mode this gives `.../falsesubscriptions/<id>` (`Reconciler.DashboardUrl`).
- **Two different status fields.** The store queries select on the snapshot's status (`data.status`). The checks in `isSubscriptionActive` then read the record's own `status` (`Store.ActiveOr`, `Resolvers.Checkable`).
- **The 32-bit wrap.** `date / 1000 | 0` wraps to 32 bits. From January 2038 the grace timestamp is negative, so no subscription would ever be found expired (`Resolvers.GraceWrapsAfter2038`).
- **Webhook errors that escape.** In each webhook handler, two steps sit outside its `try`: the `subscriptions.retrieve` call and the destructuring of `subscription.metadata`. When either fails, the express handler's promise rejects and no response is sent (`Webhooks.Reply.NoReply`). Any other failure inside a handler is caught and logged, and the answer is 200.
- **A failed retry crashes.** When the payment-method steps of `retryStripeSubscription` fail, its `catch` refers to an undefined `res`. The call therefore fails with a ReferenceError rather than a 402.
- **Callback errors are dropped.** A TypeError inside the asynchronous `updateSubscriptionStatus` is swallowed, so the users are left as they were. There are two such cases: the user does not exist, or the status is `trialing` and the user's groups are undefined.

## Model

| member | source | states |
|---|---|---|
| Store.Database.constructor | lib/modules/charges/collection.js:7-33 | an empty Charges collection beside the given users and documents; ids equal positions |
| Store.FetchedChargeIsStored | lib/server/vulcanSubscriptionHelpers/vulcanSubscriptionHelpers.js:264-269 | a fetched record's `_id` names the position it is stored at, so `updateMutator` by id rewrites that record |
| Store.FindByDataId | lib/server/vulcanSubscriptionHelpers/vulcanSubscriptionHelpers.js:57-59 | `Connectors.get(Charges, {'data.id': id})` finds the first record with that Stripe id, and nothing exactly when no record has it |
| Store.FindSubscriptions | lib/server/mutations.js:120-124 | `Connectors.find` by user id, snapshot status and `data.object == 'subscription'`: every record returned matches, and every matching record is returned |
| Store.FindSubscriptionsAppend | lib/server/mutations.js:120-124 | the query keeps store order: the matches in `a + b` are the matches in `a` followed by those in `b` |
| Store.LastMatchIsLastInStore | lib/server/mutations.js:139-140 | the last element of the query result, which every caller takes, is the matching charge that comes last in the store |
| Store.ActiveOr | lib/server/mutations.js:120-138 | the user's active subscription records, or those with the fallback status (canceled here, trialing in cancel at lib/server/graphqlHelpers/graphqlStripeSubscription.js:183-195) when there are none; every record returned is the user's subscription with one of the two statuses |
| Store.LookupUser | lib/modules/charges/callbacks.js:24 | `Users.findOne(id)` finds a user exactly when the id is given and stored |
| Entitlement.IndexOf | lib/modules/charges/callbacks.js:37 | `indexOf`: -1 exactly when absent, otherwise the first position holding the element |
| Entitlement.RemoveFirst | lib/modules/charges/callbacks.js:37-40 | `indexOf` then `splice(i, 1)` removes one occurrence of the element and nothing else (multiset difference) |
| Entitlement.RemoveFirstKeepsOthers | lib/modules/charges/callbacks.js:83-91 | splicing out a tag keeps every other group, in order |
| Entitlement.GroupsEdit | lib/modules/charges/callbacks.js:26-102 | `canceled` never edits; `active` edits iff `paidMembers` is absent; `trialing` fails iff groups are undefined and edits iff `trialMembers` is absent; any other status edits iff the groups are non-empty |
| Entitlement.EditKeepsOthers | lib/modules/charges/callbacks.js:33-40 | groups other than the two tags are never removed and keep their order, for every status |
| Entitlement.GrantKeepsOthers | lib/modules/charges/callbacks.js:28-40 | appending a tag and splicing out the other keeps every non-tag group, in order |
| Entitlement.GrantCounts | lib/modules/charges/callbacks.js:30-40 | an `active`/`trialing` write holds one more of its own tag and one fewer (if any) of the other tag |
| Entitlement.RevokeCounts | lib/modules/charges/callbacks.js:80-100 | with each tag held at most once, a write for any other status leaves neither tag |
| Entitlement.ActivationSwitchesTag | lib/modules/charges/callbacks.js:26-72 | with each tag held at most once, an `active` write leaves exactly one `paidMembers` and no `trialMembers`, and a `trialing` write the reverse |
| Entitlement.EditKeepsExclusive | lib/modules/charges/callbacks.js:26-102 | a user in at most one of the two groups stays so after any edit |
| Entitlement.EditIdempotent | lib/modules/charges/callbacks.js:26-102 | for groups holding each tag at most once, applying the same status a second time changes no groups (with a tag held twice the source is not idempotent) |
| Entitlement.WrittenIsFixed | lib/modules/charges/callbacks.js:26-102 | with each tag held at most once, the written groups are left as they are by the same status (kept, or rewritten identically) |
| Entitlement.Apply | lib/modules/charges/callbacks.js:18-105 | the callback never adds or removes users |
| Entitlement.ApplyTouchesOnlyGroups | lib/modules/charges/callbacks.js:21-24 | nothing changes unless the snapshot's metadata and the status are present; only the `groups` of the metadata's user change |
| Entitlement.ApplyIdempotent | lib/modules/charges/callbacks.js:18-105 | when every user holds each tag at most once, running the callback twice for the same charge gives the users once |
| Entitlement.UpdateSubscriptionStatus | lib/modules/charges/callbacks.js:18-105 | the new users are `Apply` of the old ones; charges and documents are untouched |
| ChargesCollection.CheckAccess | lib/modules/charges/collection.js:41-49 | an anonymous request fails, exactly; otherwise true for admins and for the user whose id is the charge's associated document, and true only for them |
| ChargesCollection.DefaultViewIsNewestFirst | lib/modules/charges/collection.js:18-22 | while creation times never go back, the store order reversed is a default view: all stored charges, as often as stored, sorted by `createdAt` descending |
| ChargesCollection.LastMatchIsNewest | lib/server/mutations.js:139-140 | while creation times never go back, the last match of a query is the newest |
| ChargesCollection.AfterCreate | lib/modules/charges/collection.js:24-27 | a created charge is appended under the next id and the entitlement callback runs on it |
| ChargesCollection.AfterUpdate | lib/modules/charges/collection.js:28-30 | an updated charge replaces the record with its id, the others stay, and the callback runs on it |
| ChargesCollection.AfterCreateKeepsIds | lib/modules/charges/collection.js:24-27 | a create keeps ids equal to positions |
| ChargesCollection.AfterUpdateKeepsIds | lib/modules/charges/collection.js:28-30 | an update keeps ids equal to positions |
| ChargesCollection.AfterCreateKeepsOldestFirst | lib/modules/charges/collection.js:24-27 | a create of a charge no older than every stored one keeps the store in creation order |
| ChargesCollection.AfterUpdateKeepsOldestFirst | lib/modules/charges/collection.js:28-30 | an update that keeps `createdAt` keeps the store in creation order |
| ChargesCollection.Create | lib/server/vulcanSubscriptionHelpers/vulcanSubscriptionHelpers.js:195-201 | `createMutator` plus its callback: the store becomes `AfterCreate` and the saved charge carries the new id |
| ChargesCollection.Update | lib/server/vulcanSubscriptionHelpers/vulcanSubscriptionHelpers.js:76-81 | `updateMutator` plus its callback: the store becomes `AfterUpdate` |
| Reconciler.DashboardUrl | lib/server/vulcanSubscriptionHelpers/vulcanSubscriptionHelpers.js:73 | the test-mode URL is `.../test/subscriptions/<id>`; the live-mode URL is `.../falsesubscriptions/<id>`; both end with the id |
| Reconciler.DashboardUrlNamesTheObject | lib/server/vulcanSubscriptionHelpers/vulcanSubscriptionHelpers.js:189 | two records' URLs for the same mode are equal only for the same Stripe id |
| Reconciler.Synced | lib/server/vulcanSubscriptionHelpers/vulcanSubscriptionHelpers.js:68-75 | the update path sets status, data, URL and both period bounds from the snapshot and changes no other field |
| Reconciler.SyncedIdempotent | lib/server/vulcanSubscriptionHelpers/vulcanSubscriptionHelpers.js:68-75 | syncing the same snapshot twice is syncing it once |
| Reconciler.Canceled | lib/server/vulcanSubscriptionHelpers/vulcanSubscriptionHelpers.js:257-262 | the cancel edit sets status `canceled` whatever the snapshot says, copies data, URL and period, and changes no other field |
| Reconciler.ProductKey | lib/server/vulcanSubscriptionHelpers/vulcanSubscriptionHelpers.js:150 | `product.apiId` if truthy, else `plan.id` if truthy, else null |
| Reconciler.NewCharge | lib/server/vulcanSubscriptionHelpers/vulcanSubscriptionHelpers.js:166-190 | a new record has `stripeId = id`, `status`, `type = object`, `test = !livemode`, `amount = plan.amount`, the product key, the user, the association and the invoice PDF |
| Reconciler.NewChargeInSync | lib/server/vulcanSubscriptionHelpers/vulcanSubscriptionHelpers.js:166-190 | a new record already agrees with its snapshot on the five synced fields |
| Reconciler.FetchInvoice | lib/server/vulcanSubscriptionHelpers/vulcanSubscriptionHelpers.js:153-163 | an embedded invoice with an id is used without a call; otherwise `invoices.retrieve` is called with `latest_invoice` |
| Reconciler.Associate | lib/server/vulcanSubscriptionHelpers/vulcanSubscriptionHelpers.js:208-233 | the found document's `chargeIds` gets the new id appended, or becomes `[id]`; a missing document and all others are untouched |
| Reconciler.InsertSpec | lib/server/vulcanSubscriptionHelpers/vulcanSubscriptionHelpers.js:105-244 | a missing association throws before any call or write; an existing Stripe id throws with no call; otherwise the only call is the invoice retrieval when the invoice is not embedded, and the insert succeeds exactly when the invoice is obtained and the snapshot has a plan; success stores the full new record (`NewCharge`) under the next id, runs the entitlement callback on it and appends its id to the associated document; any failure leaves the store as it was |
| Reconciler.InsertKeepsIdsUnique | lib/server/vulcanSubscriptionHelpers/vulcanSubscriptionHelpers.js:135-148 | an insert never stores a second record for a Stripe id |
| Reconciler.InsertNewSubscription | lib/server/vulcanSubscriptionHelpers/vulcanSubscriptionHelpers.js:105-244 | the store writes, result and calls are those of `InsertSpec` |
| Reconciler.UpdateSpec | lib/server/vulcanSubscriptionHelpers/vulcanSubscriptionHelpers.js:48-94 | success returns the snapshot unchanged, on both paths, and leaves a record holding it; failure leaves the store as it was; without a subscription record for the id, the store, calls and success are exactly those of the insert |
| Reconciler.UpdateChangesFiveFields | lib/server/vulcanSubscriptionHelpers/vulcanSubscriptionHelpers.js:57-82 | with a subscription record for the id, only that record changes, only in the five synced fields; the answer is the snapshot, no Stripe call is made, the entitlement callback runs on the rewritten record and the documents are untouched |
| Reconciler.UpdateKeepsIdsUnique | lib/server/vulcanSubscriptionHelpers/vulcanSubscriptionHelpers.js:61-89 | neither path stores a second record for a Stripe id, including the fall-through on a non-subscription record |
| Reconciler.UpdateIdempotent | lib/server/vulcanSubscriptionHelpers/vulcanSubscriptionHelpers.js:61-82 | when every user holds each entitlement tag at most once, delivering the same snapshot twice to a subscription record leaves the store as once, users included |
| Reconciler.InsertThenUpdateKeepsRecord | lib/server/graphqlHelpers/graphqlStripeSubscription.js:104-112 | after an insert, a webhook update with any snapshot of the same Stripe id finds the new record, makes no call, adds no record, syncs only that record with the snapshot, runs the entitlement callback on it and leaves the documents alone; the inserted snapshot itself leaves the charges unchanged, and the whole store unchanged when every user held each tag at most once |
| Reconciler.ActiveUpdateGrantsPaid | lib/modules/charges/callbacks.js:25-47 | an update of an existing subscription record to status `active` leaves the metadata user in `paidMembers`, and out of `trialMembers` when the user was in at most one of the two groups (the path from `incomplete` at creation to `active` by webhook) |
| Reconciler.InsertKeepsOldestFirst | lib/server/vulcanSubscriptionHelpers/vulcanSubscriptionHelpers.js:166-201 | an insert at a time no earlier than every stored record keeps the store in creation order |
| Reconciler.UpdateKeepsOldestFirst | lib/server/vulcanSubscriptionHelpers/vulcanSubscriptionHelpers.js:61-92 | the update path leaves `createdAt` alone and the insert path adds the newest record, so creation order is kept |
| Reconciler.CancelKeepsOldestFirst | lib/server/vulcanSubscriptionHelpers/vulcanSubscriptionHelpers.js:254-271 | a cancellation leaves `createdAt` alone, so creation order is kept |
| Reconciler.UpdateSubscription | lib/server/vulcanSubscriptionHelpers/vulcanSubscriptionHelpers.js:48-94 | the store writes, result and calls are those of `UpdateSpec` |
| Reconciler.CancelSpec | lib/server/vulcanSubscriptionHelpers/vulcanSubscriptionHelpers.js:254-271 | an empty list fails; otherwise only the last listed record changes, to `Canceled`; users and documents are untouched, since a `canceled` record never edits groups; no Stripe call |
| Reconciler.CancelSubscription | lib/server/vulcanSubscriptionHelpers/vulcanSubscriptionHelpers.js:254-271 | the store writes and result are those of `CancelSpec` |
| Webhooks.Route | lib/server/webhooks.js:78-105 | `invoice.paid` and `invoice.payment_succeeded` go to the paid handler, `invoice.payment_failed` to the failed one, `customer.subscription.deleted` to the cancel one, and nothing else has a handler |
| Webhooks.AssociatedDocument | lib/server/webhooks.js:123-135 | the handlers go on only when both association fields are truthy and the document exists |
| Webhooks.InvoiceHandlerSpec | lib/server/webhooks.js:116-156 | the subscription is retrieved first; it fails (writing nothing) exactly when the retrieval fails or the subscription has no metadata; without an existing associated document nothing else happens; with one the store becomes that of `vulcanUpdateSubscription` on the retrieved subscription, which a changed store then holds |
| Webhooks.CancelledHandlerSpec | lib/server/webhooks.js:211-251 | one retrieval; it fails (writing nothing) exactly when that fails or there is no metadata; with an existing document and an active record the store becomes that of `vulcanCancelSubscription` on the active records with the event's own object, so the last one is canceled; otherwise nothing changes; no trialing fallback |
| Webhooks.ReceiveSpec | lib/server/webhooks.js:54-107 | a bad signature or an unknown type answers 400 with no call and no write; a routed event has its handler's store and calls, and answers 200 when the handler succeeds and nothing when it rejects |
| Webhooks.InvoiceRedeliveryIsHarmless | lib/server/webhooks.js:116-156 | when every user holds each entitlement tag at most once, an invoice event for a subscription with a record, delivered twice, leaves the store as delivering it once |
| Webhooks.CancelledRedeliveryIsHarmless | lib/server/webhooks.js:211-251 | for a user with at most one active subscription record, a cancellation event whose object's status is not `active`, delivered twice, leaves the store as delivering it once |
| Webhooks.HandleInvoice | lib/server/webhooks.js:116-203 | `handleInvoicePaid` and `handleInvoiceFailed` (the same code) do what `InvoiceHandlerSpec` says |
| Webhooks.HandleCancelled | lib/server/webhooks.js:211-251 | `handleInvoiceCancelled` does what `CancelledHandlerSpec` says |
| Webhooks.Receive | lib/server/webhooks.js:54-107 | the endpoint's reply, writes and calls are those of `ReceiveSpec` |
| SubscriptionCommands.BuildMetadata | lib/server/graphqlHelpers/graphqlStripeSubscription.js:76-88 | the metadata always holds user id, name, profile and product key, and holds the association pair exactly when both parts are truthy |
| SubscriptionCommands.CreateSpec | lib/server/graphqlHelpers/graphqlStripeSubscription.js:50-116 | an attach or default-method failure is rethrown with no further call or write; when both succeed and a product is given, the create request carries price `apiId`, the built metadata and `trial_from_plan`; a rejected create is rethrown; a created subscription is tagged `subscription` and passed to the insert, whose store, calls and success the command takes over, answering the tagged subscription |
| SubscriptionCommands.CreateRecordsSubscription | lib/server/graphqlHelpers/graphqlStripeSubscription.js:50-116 | when every Stripe call succeeds, the document is associated, the subscription has a plan, its id is new and its invoice is obtained, the command answers the tagged subscription, appends exactly the record `NewCharge` makes from it and lists its id on the associated document |
| SubscriptionCommands.CreateStripeSubscription | lib/server/graphqlHelpers/graphqlStripeSubscription.js:50-116 | the writes, result and calls are those of `CreateSpec` |
| SubscriptionCommands.RetrySpec | lib/server/graphqlHelpers/graphqlStripeSubscription.js:130-160 | a failing attach or default-method update ends in a ReferenceError; when both succeed the three calls are made and the answer is exactly the invoice `invoices.retrieve` returns, or its rejection; nothing is written |
| SubscriptionCommands.Rethrow | lib/server/graphqlHelpers/graphqlStripeSubscription.js:239-248 | errors with `raw` are rethrown as its message, all others unchanged |
| SubscriptionCommands.CancelCommandSpec | lib/server/graphqlHelpers/graphqlStripeSubscription.js:173-253 | no current user, or one not stored, fails with no call or write; no customer id gives undefined with no call or write; with one and no candidate it fails with no call; otherwise the last candidate is deleted, and: a rejection is rethrown (through `raw`) with nothing written; a truthy `canceled_at` cancels that record and answers the deleted subscription; no `canceled_at` throws `Subscription canceled, but database not updated.` with nothing written |
| SubscriptionCommands.CancelPrefersActive | lib/server/graphqlHelpers/graphqlStripeSubscription.js:183-202 | with an active record present, the deleted subscription is the last active one |
| SubscriptionCommands.CancelStripeSubscription | lib/server/graphqlHelpers/graphqlStripeSubscription.js:173-253 | the writes, result and calls are those of `CancelCommandSpec` |
| StripeCustomer.GetStripeCustomerId | lib/server/graphqlHelpers/graphqlStripeCustomer.js:37-47 | the current user's customer id when truthy, otherwise false |
| StripeCustomer.CreateCustomerSpec | lib/server/graphqlHelpers/graphqlStripeCustomer.js:55-90 | no settings throws before any call; no current user, a rejected create or a user not stored fails with nothing written; the customer is created with the current user's email; a created customer's id is written to that user's `stripeCustomerId` and nothing else, and the answer is that id when non-empty, else `Failed to create a new customer.` |
| StripeCustomer.CreateStripeCustomer | lib/server/graphqlHelpers/graphqlStripeCustomer.js:55-90 | the writes, result and calls are those of `CreateCustomerSpec` |
| Resolvers.StripeCreateCustomerSpec | lib/server/mutations.js:36-50 | an existing id is returned with no call or write; otherwise the created one; `No Customer ID` is never thrown |
| Resolvers.CreateCustomerOnce | lib/server/mutations.js:36-50 | a second request after a successful one creates no customer and returns the same id |
| Resolvers.StripeCreateCustomer | lib/server/mutations.js:36-50 | the writes, result and calls are those of `StripeCreateCustomerSpec` |
| Resolvers.StripeCreateSubscriptionSpec | lib/server/mutations.js:60-83 | `retry == true` takes the retry path, writes nothing and answers `{invoice}`; otherwise the create path answers `{subscription}`; `Error processing payment` is never thrown |
| Resolvers.StripeCreateSubscription | lib/server/mutations.js:60-83 | the writes, result and calls are those of `StripeCreateSubscriptionSpec` |
| Resolvers.StripeCancelSubscriptionSpec | lib/server/mutations.js:93-105 | an undefined cancellation becomes `Error processing cancellation`; a deleted subscription is answered as is |
| Resolvers.CancelWithoutCustomer | lib/server/mutations.js:93-105 | a user without customer id gets `Error processing cancellation` with no call or write |
| Resolvers.StripeCancelSubscription | lib/server/mutations.js:93-105 | the writes, result and calls are those of `StripeCancelSubscriptionSpec` |
| Resolvers.ToInt32 | lib/server/mutations.js:148 | `| 0` keeps values in 32 bits, congruent to the input, and leaves 32-bit values alone |
| Resolvers.GraceBefore2038 | lib/server/mutations.js:144-150 | until 2038 the compared timestamp is the whole seconds of now minus one day |
| Resolvers.GraceWrapsAfter2038 | lib/server/mutations.js:148 | from 2038 the compared timestamp is negative |
| Resolvers.IsActiveSpec | lib/server/mutations.js:113-190 | no user, or no active or canceled record, answers false with nothing done; a record of another status answers undefined; for a checkable unexpired record with metadata the answer is exactly whether its metadata user is in `paidMembers` or `trialMembers`, with nothing written; a write happens only with the answer false |
| Resolvers.ExpiryMarksRecord | lib/server/mutations.js:150-173 | an expired subscription record is rewritten with status `expired` in the record and its snapshot, the callback runs on it, and the answer is false |
| Resolvers.ExpireSpec | lib/server/mutations.js:150-173 | the expiry branch: without metadata it fails before any write; a failure writes nothing; success answers false and leaves a record holding the snapshot marked `expired` |
| Resolvers.CheckSpec | lib/server/mutations.js:140-189 | the checks on the last record found: another status gives undefined; expired gives false or a failure; unexpired with metadata gives exactly the membership of the metadata's user, with no write; unexpired without metadata fails |
| Resolvers.Expire | lib/server/mutations.js:150-173 | the store writes, result and calls are those of `ExpireSpec` |
| Resolvers.Check | lib/server/mutations.js:140-189 | the store writes, result and calls are those of `CheckSpec` |
| Resolvers.IsSubscriptionActive | lib/server/mutations.js:113-190 | the writes, result and calls are those of `IsActiveSpec` |
| CustomFields.FindAssociated | lib/modules/custom_fields.js:26 | `Charges.findOne({associatedDocument})` finds the first associated charge, and nothing exactly when none is |
| CustomFields.SubscriptionField | lib/modules/custom_fields.js:24-32 | the first associated charge's plan id, or `''` when there is no such charge or it has no plan |

## Left out

- Stripe itself: customers, payment methods, subscriptions and invoices are answers of arbitrary functions. The webhook signature check (`stripe.webhooks.constructEvent`) is a boolean input.
- The second parse of the webhook body (lib/server/webhooks.js:70-74): the event is taken as already parsed.
- Settings and key selection, express and body-parser set-up, the GraphQL schema and union type (lib/server/mutations.js:193-216): configuration only.
- The `stripe.process.sync` hooks are taken as the identity. The `stripe.process.async` hooks and the callback registrations are taken as no-ops: they are extension points with nothing registered in the package.
- Timing. The clock is a parameter (`now`, in milliseconds). "One day earlier" is 86 400 000 ms, whereas `setDate` works in local calendar days.
- Concurrency. The charge callbacks are asynchronous; the model runs each one right after its write, so no interleaving between the API and webhook paths is modelled.
- `Users.getDisplayName` and `Users.getProfileUrl` are foreign helpers; their results are parameters of the create command.
- `getCollection` and `Connectors.get` on an associated document are a lookup in the document map by collection name and id. An unknown collection behaves as a missing document. The map is kept apart from the users, so a user used as the associated document has its `chargeIds` recorded separately from its `groups`.
- Reconciler.InsertSpec: returns nothing. The source returns the updated associated document (with `__typename`) or `{}`, and both of its callers ignore that value.
- Webhooks.ArgsFrom: it carries only the user id and the association. The handlers also pass `vulcanProductKey` and `livemode`, which the reconciler never reads.
- Resolvers.IsActiveSpec: `return isValid = x` returns `x`, as in sloppy mode. The fall-through `return isValid` is modelled as a ReferenceError. In the source it may instead return the value a previous call left in the undeclared global `isValid`.
- Resolvers.IsMember: follows `Users.isMemberOf` for a stored user (a tag in `groups`) and is false for a missing user. Vulcan's group helpers themselves are not part of this model.
- ChargesCollection.IsDefaultView: allows any order among charges created at the same time, as the sort on `createdAt` alone does not fix one. The creation-order lemmas assume the clock passed to an insert never goes back.
- CustomFields.SubscriptionField: a charge always has `data` in this model, because the server writes one on every insert. So the case where the charge has no `data` does not arise.
- `Users.findOne` and `Connectors.get` return copies. The model's methods read the record and write it back whole, so aliasing between a fetched object and the store is not modelled.

# Events and subscriptions platform — verified model of its rules

This Dafny project models the decision logic of an events/promotions web
platform whose companies pay for subscriptions through a billing provider:

- **Billing** (`billing.dfy`): the local mirror of a company's provider
  subscription (`activeSubscription` and the provider ids) and the handlers
  that move it: create a checkout session, cancel at period end, reactivate,
  upgrade in place or hand out a payment link, and the periodic sweep that
  downgrades expired companies to role `basic`.
- **Events** (`events.dfy`): forcing the type of a new promotion, the tier a
  promotion gets from its company's billing status when it is updated, the
  admin publish path, the input check and `$match` post-filter of the nearby
  search, and the per-user listing.
- **Users** (`users.dfy`): sign-up validation, the company-email default and
  duplicate check, the mapping of storage errors to status codes, the
  four-way role switch on update, and the company-only plan assignment.
- **ClientEvents** (`client_events.dfy`): the browser-side event store: the
  category toggle, the place details (postal code lookup), the static map URL
  and the plain setters.
- **Common** (`common.dfy`): optional fields, foreign-call outcomes, status
  codes, JavaScript truthiness of strings.

Databases are maps from id to record, owned by a store class whose methods
reassign them; a handler's read-modify-save is one map update. Every answer of
the billing provider (customer, checkout session, updated subscription,
subscription list, payment link) is a method parameter, and so are the
outcome of the user insert, the failure of the write in `updateUser`, the
failure of each matched company's save in the expiry sweep and the failure of
the final `company.save()` in the create, cancel, reactivate and upgrade
handlers. A call that throws becomes the handler's `catch` path. The
remaining writes are taken to succeed (see "Left out"). "Now"
and "today at midnight" are integer inputs in epoch milliseconds; the
provider's period bounds are epoch seconds and are multiplied by 1000 where
the source does so.

Companies are taken to be user documents of a company kind in the users
collection: `User.findById` finds both kinds, company queries see only the
company kind. The billing module and the users module each model the part of
those documents their handlers touch.

Behaviour of the code that the model keeps as written:

- The promotion tier keeps the company's plan only for status `active`, or
  `canceled` with a cancellation date after now; a `canceling` company (still
  inside its paid period) falls back to the basic plan.
  `Events.CancelDropsPlan` states the consequence: a promotion updated
  after the cancellation is recorded gets the basic plan (or 500 when no
  `basic` plan exists). Cancelling writes only the company; a promotion's
  stored plan changes only when it is updated.
- The expiry sweep stops at the first save that throws, because its `catch`
  is outside the loop. `Billing.CompanyStore.UpdateExpiredSubscriptions`
  returns the set it actually wrote.
- Creating a subscription for a missing company answers 404.
- When the provider has accepted a cancellation, reactivation or upgrade but
  the company's save then throws, the answer is 500 and the stored record
  still shows the old subscription state.

The update of a company with a body that does not mention `role` takes the
"leave company" branch, since an absent role is not `company`: the company
record is deleted and recreated from its own fields with the body on top.
The copied fields include the company discriminator, so the recreated
record is a company again: a record leaves the company kind by no update.
`Users.CompanyUpdateWithoutRoleRecreatesCompany` states that the company
comes back as a company whose role still says `company`, so the same update
can be repeated and the plan assignment still finds the company.

## Model

| member | source | states |
|---|---|---|
| `Billing.CancelAt` | backend/api/controllers/subscription.controller.js:88-90 | after a cancel the status is `canceling`, `cancelAtPeriodEnd` is true, `canceledAt` is now; plan, period bounds, role and provider ids are unchanged |
| `Billing.Reactivate` | backend/api/controllers/subscription.controller.js:126-128 | after a reactivation the status is `active`, `cancelAtPeriodEnd` is false, `canceledAt` is null; everything else is unchanged |
| `Billing.Upgraded` | backend/api/controllers/subscription.controller.js:192-201 | the snapshot becomes exactly {active, new plan, start*1000, end*1000} with the cancellation fields dropped; subscription id and first item id come from the provider's answer; customer id and role are kept |
| `Billing.Downgrade` | backend/api/controllers/subscription.controller.js:231-232 | a swept company is `canceled` with role `basic`, the rest of its snapshot and its provider ids unchanged |
| `Billing.Expired` | backend/api/controllers/subscription.controller.js:225-228 | a `canceled` company never matches the sweep's query, nor does one without a period end |
| `Billing.ExpiredIds` | backend/api/controllers/subscription.controller.js:225-228 | the sweep matches exactly the companies with a period end at or before today and status `active` or `canceling` |
| `Billing.SweepIds` | backend/api/controllers/subscription.controller.js:230-233 | the named companies are downgraded and every other company is left as it was; no company is added or removed |
| `Billing.Swept` | backend/api/controllers/subscription.controller.js:225-237 | a completed sweep keeps every id, downgrades each matched company and leaves every other company as it was |
| `Billing.ReactivateUndoesCancel` | backend/api/controllers/subscription.controller.js:88-128 | cancel followed by reactivate leaves what reactivate alone leaves |
| `Billing.CancelReactivateRoundTrip` | backend/api/controllers/subscription.controller.js:88-128 | from an active, not cancelling company, cancel then reactivate restores the company exactly |
| `Billing.ReactivateIdempotent` | backend/api/controllers/subscription.controller.js:126-128 | reactivating twice is reactivating once |
| `Billing.SweepChangesExactlyExpired` | backend/api/controllers/subscription.controller.js:225-237 | a company changes in a completed sweep if and only if it matched, and then it is `canceled` with role `basic` |
| `Billing.NothingExpiredAfterSweep` | backend/api/controllers/subscription.controller.js:225-237 | after a completed sweep no company matches the sweep's query |
| `Billing.SweepIdempotent` | backend/api/controllers/subscription.controller.js:225-237 | a second sweep with the same day changes nothing |
| `Billing.LaterSweepSubsumesEarlier` | backend/api/controllers/subscription.controller.js:221-237 | a sweep on an earlier day followed by one on a later day ends where the later sweep alone ends |
| `Billing.SweepWithoutFailuresIsComplete` | backend/api/controllers/subscription.controller.js:230-240 | when no matched company's save throws, the sweep writes exactly the completed-sweep collection |
| `Billing.CompanyStore.CreateSubscription` | backend/api/controllers/subscription.controller.js:24-64 | missing company gives 404 with no write; for a present company, a throwing customer lookup or creation (lookup when a customer id is stored, creation otherwise), a throwing session or a throwing save gives 500 with no write, and otherwise the answer carries the session and customer ids and only the company's subscription id changes, to the session's |
| `Billing.CompanyStore.CancelSubscription` | backend/api/controllers/subscription.controller.js:67-102 | missing company or falsy subscription id gives 404 and no change; a throwing provider call or a throwing save gives 500 and no change; otherwise the company becomes `CancelAt(now)` and the answer carries period end * 1000 |
| `Billing.CompanyStore.ReactivateSubscription` | backend/api/controllers/subscription.controller.js:105-139 | same guards and failure cases as cancel; on success the answer carries the provider's subscription, the company becomes `Reactivate` of itself and nothing else changes |
| `Billing.CompanyStore.UpgradeSubscription` | backend/api/controllers/subscription.controller.js:142-217 | missing company gives 404; a throwing list call gives 500; without a stored customer or an active provider subscription the answer is the payment link, or 500 when creating it throws, and nothing is written; with an active subscription the company becomes `Upgraded` by the provider's answer and the answer carries it, unless the update or the save throws or a subscription has no item, which gives 500 and no write |
| `Billing.CompanyStore.UpdateExpiredSubscriptions` | backend/api/controllers/subscription.controller.js:220-240 | the written set is a subset of the matched companies, the collection is the old one with exactly those downgraded, and the sweep is complete unless some unwritten matched company's save threw |
| `Events.FindByName` | backend/api/controllers/event.controller.js:308-315 | the lookup by name answers the first plan with that name, or nothing exactly when none has it |
| `Events.Merge` | backend/api/controllers/event.controller.js:245-248 | each field the body sets overrides the stored one, the others are kept; each detail key takes the body's value when the body has it, else the stored one |
| `Events.AsPromotion` | backend/api/controllers/event.controller.js:27-30 | a created promotion always has type `promotion`; every other field is the body's |
| `Events.PromotionTier` | backend/api/controllers/event.controller.js:268-287 | an `active` company, or a `canceled` one with `canceledAt` (0 when missing) after now, gives the company's plan; otherwise the first `basic` plan's id, and no tier exactly when there is no `basic` plan |
| `Events.KeepsPlan` | backend/api/controllers/event.controller.js:269-276 | an `active` company keeps its plan and a `canceling` one never does; a `canceled` one keeps it only with a cancellation date (or a negative now) |
| `Events.KeepsPlanExactly` | backend/api/controllers/event.controller.js:268-276 | for a non-negative now the plan is kept iff `active`, or `canceled` with a present `canceledAt` after now; `canceling` never keeps it |
| `Events.CancelDropsPlan` | backend/api/controllers/event.controller.js:273-276 | a company whose cancellation is recorded does not keep its plan, whatever the time of the update, so a promotion updated afterwards gets the basic plan, or 500 when there is none |
| `Events.SweptCancelledDropsPlan` | backend/api/controllers/event.controller.js:273-276 | a swept company whose cancellation date is not after now does not keep its plan |
| `Events.ReactivatedKeepsPlan` | backend/api/controllers/event.controller.js:273-277 | a reactivated or upgraded company keeps its plan; after an upgrade the promotion gets the new plan |
| `Events.MatchStage` | backend/api/controllers/event.controller.js:216-221 | the filter keeps only published events of the requested type, each taken from the input, and keeps every such event of the input |
| `Events.MatchStageAppend` | backend/api/controllers/event.controller.js:216-221 | the filter distributes over concatenation, so it keeps the input's order |
| `Events.MatchStageKeepsOrder` | backend/api/controllers/event.controller.js:204-222 | input sorted nearest first and within the radius gives output sorted nearest first and within the radius |
| `Events.SearchNearby` | backend/api/controllers/event.controller.js:175-233 | a falsy latitude or longitude gives 400 and nothing else does; the answer is exactly the geo stage's published events of the requested type (which defaults to `promotion`), every one of them and in the geo stage's order |
| `Events.SearchNearbyNearestFirst` | backend/api/controllers/event.controller.js:204-222 | a geo stage output sorted nearest first within 5000 m gives an answer sorted nearest first within 5000 m |
| `Events.EventsOf` | backend/api/controllers/event.controller.js:150 | the user's events are exactly the stored events with that user id |
| `Events.EventsByUserId` | backend/api/controllers/event.controller.js:147-164 | the empty answer is given exactly when no stored event belongs to the user; otherwise the non-empty list of that user's events |
| `Events.EventStore.CreatePromotion` | backend/api/controllers/event.controller.js:25-37 | the new document is the body with type `promotion`, stored under the new id; the answer is 201 |
| `Events.EventStore.UpdateEvent` | backend/api/controllers/event.controller.js:243-295 | missing event gives 404 with no write; the body is applied and kept; a non-promotion is not recomputed; a promotion without its company gives 404 and without a basic plan 500; otherwise its subscription becomes `PromotionTier` |
| `Events.EventStore.UpdateEventByAdmin` | backend/api/controllers/event.controller.js:306-339 | no `optima` plan gives 500 before the lookup; missing event 404; an `event` without an `optima plus` tier 500; on success the event is `published`, a promotion gets optima and keeps its payment, an `event` gets optima plus and keeps its subscription, any other type keeps both, nothing else changes |
| `Users.HasCompanyFields` | backend/api/controllers/user.controller.js:11-16 | the company fields pass exactly when name, phone and sector are present and non-empty |
| `Users.WithCompanyEmail` | backend/api/controllers/user.controller.js:18-20 | a falsy company email is replaced by the email; every other field is kept |
| `Users.CompanyEmailTaken` | backend/api/controllers/user.controller.js:22-30 | the email is taken exactly when some company record has the same company email |
| `Users.Admissible` | backend/api/controllers/user.controller.js:10-30 | a non-company sign-up is always admissible; an admissible company sign-up has its required fields and an email no stored company has |
| `Users.CreateErrorStatus` | backend/api/controllers/user.controller.js:42-55 | error code 11000 gives 400 (status number 400), every other failure 500 |
| `Users.RoleChangeOf` | backend/api/controllers/user.controller.js:153-173 | the four branches partition the (old role, new role) pairs by whether each is `company` |
| `Users.Updated` | backend/api/controllers/user.controller.js:153-173 | a successful update leaves the stored fields with the body on top, of company kind after a switch to company and of the stored kind otherwise (leaving the company role copies the discriminator) |
| `Users.UpdatedRole` | backend/api/controllers/user.controller.js:155-171 | after an update the role is the body's when it names one, else the old one |
| `Users.CompanyUpdateWithoutRoleRecreatesCompany` | backend/api/controllers/user.controller.js:150-162 | a company updated with a body lacking `role` takes the leave-company branch and is recreated as a company whose role is still `company`, so a repeated update takes the same branch |
| `Users.UpdatedKeepsCompanyKind` | backend/api/controllers/user.controller.js:150-173 | after an update a record is of the company kind exactly when it was before or the body switched it to `company` |
| `Users.AccountStore.CreateUser` | backend/api/controllers/user.controller.js:5-57 | a company without name, phone or sector gives 400; a taken company email gives 400; otherwise 201 or the mapped insert error; nothing is stored unless 201; a company record gets the defaulted email and role `company`, any other role a plain record equal to the body |
| `Users.AccountStore.UpdateUser` | backend/api/controllers/user.controller.js:139-190 | unknown id gives 404; a role switch deletes then creates under the same id (a failing create loses the record; the new record is `Updated`, so a company that leaves the role is recreated as a company), except that leaving the company role from a plain record deletes nothing and the duplicate-id create gives 500 and no change; an update in place that fails, or a company update of a plain record, gives 500 and no change |
| `Users.AccountStore.UpdateUserSubscription` | backend/api/controllers/user.controller.js:192-239 | unknown id 404, non-company role 400, plain record with company role 404, all with no change; otherwise only the `subscription` field is set |
| `ClientEvents.IndexOfId` | frontend/stores/eventStore.js:36 | -1 exactly when no element has the id, else the first position holding it |
| `ClientEvents.FindIndex` | frontend/stores/eventStore.js:36 | the search loop answers the first position holding the id, or -1 |
| `ClientEvents.Toggled` | frontend/stores/eventStore.js:35-42 | an absent id appends the category; a present one shortens the selection by one |
| `ClientEvents.ToggleAbsentAppends` | frontend/stores/eventStore.js:36-38 | an absent category is appended and the rest is unchanged |
| `ClientEvents.TogglePresentRemovesFirst` | frontend/stores/eventStore.js:39-41 | a present category loses exactly its first occurrence: the result is the list without the first position holding the id, and the elements with other ids keep their order |
| `ClientEvents.ToggleKeepsOthers` | frontend/stores/eventStore.js:35-42 | in both cases the elements with other ids are kept in order |
| `ClientEvents.ToggleTwiceRestores` | frontend/stores/eventStore.js:35-42 | toggling an absent category twice restores the list |
| `ClientEvents.ToggleFlipsMembership` | frontend/stores/eventStore.js:35-42 | with unique ids, membership of the id flips and ids stay unique |
| `ClientEvents.PostalCode` | frontend/stores/eventStore.js:49-50 | the long name of the first component typed `postal_code`, else the empty string |
| `ClientEvents.MapImageUrl` | frontend/stores/eventStore.js:72-74 | the fixed template with `lat,lng` as centre and as marker, ending in the stored key (`null` when unset) |
| `ClientEvents.EventStore.ToggleCategory` | frontend/stores/eventStore.js:35-42 | the selection becomes its toggle; no other field changes |
| `ClientEvents.EventStore.SetPlaceDetails` | frontend/stores/eventStore.js:43-56 | address, coordinates, postal code, map URL and website come from the place; no other field changes |
| `ClientEvents.EventStore.SetMapCenter` | frontend/stores/eventStore.js:57-59 | only the map centre changes |
| `ClientEvents.EventStore.SetMapImageUrl` | frontend/stores/eventStore.js:60-62 | only the location's map URL changes |
| `ClientEvents.EventStore.SetHasTriedSubmit` | frontend/stores/eventStore.js:63-65 | only the submit flag changes |
| `ClientEvents.EventStore.SetEvents` | frontend/stores/eventStore.js:66-68 | only the event list changes |
| `ClientEvents.EventStore.SetGoogleMapsApiKey` | frontend/stores/eventStore.js:69-71 | only the key changes |
| `ClientEvents.EventStore.SetEvent` | frontend/stores/eventStore.js:32-34 | only the current event changes |
| `ClientEvents.EventStore.constructor` | frontend/stores/eventStore.js:4-30 | the initial state: empty selections and lists, an empty location, map centre 51.09, 6.84, no key |

## Left out

- Billing provider calls (customer retrieval and creation, checkout sessions, subscription update and list, payment links): their answers are parameters. The customer-creation service is not part of this model, so whether it stores the new customer id is not modelled.
- Database queries, `populate`, schema defaults and validators (`runValidators`): failures of read queries are not modelled, and the writes not named as parameters above are taken to succeed.
- Events.EventStore.CreatePromotion: `Event.create` is taken to succeed; a throwing create (500) is not modelled.
- Events.EventStore.UpdateEvent: the `findByIdAndUpdate` and the promotion's `event.save()` are taken to succeed; a throw there (500, with the body already applied when the save fails) is not modelled.
- Events.EventStore.UpdateEventByAdmin: `event.save()` is taken to succeed; a throwing save (500) is not modelled.
- Users.AccountStore.UpdateUserSubscription: `Company.findByIdAndUpdate` is taken to succeed apart from answering null for a plain record; a throwing update (500) is not modelled.
- The `$geoNear` stage (spherical distance, the 5000 m radius, `parseFloat` of the coordinates): its output is an input list of events with distances.
- `new Date()` and `setHours(0, 0, 0, 0)`: now and today's midnight are inputs.
- Concurrency: parallel `populate`, races between provider writes and local writes, and requests racing on one company.
- `getSubscriptions`, `createEvent`, `getAllEvents`, `getEventById`, `deleteEvent`, `getAllUsers`, `getUserById`, `getCurrentUser` and `deleteUser`: plain storage pass-throughs with a 404 at most.
- Response bodies beyond the status code and the returned record; logging.
- The store's form fields that no action writes (name, type, date, price, capacity, times, image, selected file, selected category).
- Users.AccountStore.UpdateUser: a body that sets the discriminator key itself is not modelled; the kind comes from the branch and the copied discriminator only.
- Coordinates and the map centre are JavaScript numbers kept here as the text JavaScript prints for them; any numeric use of them (arithmetic, comparison, `parseFloat`) is not modelled.
- The route table, the database connection module and the toast UI components are not part of this model.

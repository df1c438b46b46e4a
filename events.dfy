/** The publishing rules of backend/api/controllers/event.controller.js.

    An event document is a bag of optional fields; a request body of the same
    shape lists only the fields it sets. The event collection is a map from id
    to document; companies are the records of the billing module; plans
    (`Subscription`) and payment tiers (`Payment`) are looked up by name in
    collection order. Dates are epoch milliseconds. */
module Events {
  import opened Common
  import Billing

  datatype EventDoc = EventDoc(
    eventType: Option<string>,
    status: Option<string>,
    userId: Option<Id>,
    subscription: Option<Id>,
    payment: Option<Id>,
    details: map<string, string>)   // every other field: name, description, ...

  /** A subscription plan or a payment tier, found by its name. */
  datatype Plan = Plan(id: Id, name: string)

  const PromotionType := "promotion"
  const EventType := "event"
  const Published := "published"
  const BasicPlan := "basic"
  const OptimaPlan := "optima"
  const OptimaPlusPayment := "optima plus"
  /** `maxDistance` of `searchNearbyEvents`, in metres. */
  const NearbyRadius := 5000

  // ---------------------------------------------------------------------------
  // Lookups

  /** `findOne({ name })`: the first plan with that name. */
  function FindByName(plans: seq<Plan>, name: string): (r: Option<Plan>)
    ensures r.None? <==> forall k :: 0 <= k < |plans| ==> plans[k].name != name
    ensures r.Some? ==> exists k :: 0 <= k < |plans| && plans[k] == r.value
                                    && forall j :: 0 <= j < k ==> plans[j].name != name
    ensures r.Some? ==> r.value.name == name
  {
    if |plans| == 0 then None
    else if plans[0].name == name then Some(plans[0])
    else
      var r := FindByName(plans[1..], name);
      if r.Some? then
        ghost var k :| 0 <= k < |plans[1..]| && plans[1..][k] == r.value
                       && forall j :: 0 <= j < k ==> plans[1..][j].name != name;
        assert plans[k + 1] == r.value;
        r
      else r
  }

  /** `findByIdAndUpdate(id, body)`: every field the body sets overrides the
      stored one. */
  function Merge(doc: EventDoc, body: EventDoc): (r: EventDoc)
    ensures r.eventType == (if body.eventType.Some? then body.eventType else doc.eventType)
    ensures r.status == (if body.status.Some? then body.status else doc.status)
    ensures r.userId == (if body.userId.Some? then body.userId else doc.userId)
    ensures r.subscription == (if body.subscription.Some? then body.subscription else doc.subscription)
    ensures r.payment == (if body.payment.Some? then body.payment else doc.payment)
    ensures r.details.Keys == doc.details.Keys + body.details.Keys
    ensures forall k :: k in r.details ==>
              r.details[k] == if k in body.details then body.details[k] else doc.details[k]
  {
    EventDoc(
      if body.eventType.Some? then body.eventType else doc.eventType,
      if body.status.Some? then body.status else doc.status,
      if body.userId.Some? then body.userId else doc.userId,
      if body.subscription.Some? then body.subscription else doc.subscription,
      if body.payment.Some? then body.payment else doc.payment,
      doc.details + body.details)
  }

  // ---------------------------------------------------------------------------
  // createPromotion

  /** `{ ...req.body, eventType: 'promotion' }`. */
  function AsPromotion(body: EventDoc): (r: EventDoc)
    ensures r.eventType == Some(PromotionType)
    ensures r.status == body.status && r.userId == body.userId
    ensures r.subscription == body.subscription && r.payment == body.payment
    ensures r.details == body.details
  {
    body.(eventType := Some(PromotionType))
  }

  // ---------------------------------------------------------------------------
  // updateEvent: the entitlement rule

  /** A missing cancellation date counts as 0. */
  function CanceledAtMillis(s: Billing.Snapshot): (ms: int)
  {
    if s.canceledAt.Some? then s.canceledAt.value else 0
  }

  /** Whether a promotion keeps its company's plan: the company is `active`,
      or `canceled` with a cancellation date after now. */
  predicate KeepsPlan(company: Billing.Company, now: int): (keeps: bool)
    ensures company.activeSubscription.status == Billing.Active ==> keeps
    ensures company.activeSubscription.status == Billing.Canceling ==> !keeps
    ensures keeps && company.activeSubscription.status == Billing.Canceled ==>
              company.activeSubscription.canceledAt.Some? || now < 0
  {
    || company.activeSubscription.status == Billing.Active
    || (company.activeSubscription.status == Billing.Canceled
        && CanceledAtMillis(company.activeSubscription) > now)
  }

  /** The tier `updateEvent` gives a promotion: the company's plan (possibly
      absent), the first `basic` plan's id, or nothing when there is no
      `basic` plan. */
  datatype Tier = Tier(subscription: Option<Id>) | NoBasicPlan

  function PromotionTier(company: Billing.Company, now: int, plans: seq<Plan>): (r: Tier)
    ensures KeepsPlan(company, now) ==> r == Tier(company.activeSubscription.plan)
    ensures !KeepsPlan(company, now) ==>
              (r == NoBasicPlan <==> forall k :: 0 <= k < |plans| ==> plans[k].name != BasicPlan)
    ensures !KeepsPlan(company, now) && r.Tier? ==>
              exists k :: 0 <= k < |plans| && plans[k].name == BasicPlan
                          && r.subscription == Some(plans[k].id)
                          && forall j :: 0 <= j < k ==> plans[j].name != BasicPlan
  {
    if KeepsPlan(company, now) then Tier(company.activeSubscription.plan)
    else
      var basic := FindByName(plans, BasicPlan);
      if basic.None? then NoBasicPlan else Tier(Some(basic.value.id))
  }

  /** The rule spelled out over the cancellation date: for a non-negative
      now, a missing date never keeps the plan, and `canceling` never does. */
  lemma KeepsPlanExactly(company: Billing.Company, now: int)
    requires now >= 0
    ensures KeepsPlan(company, now) <==>
              || company.activeSubscription.status == Billing.Active
              || (company.activeSubscription.status == Billing.Canceled
                  && company.activeSubscription.canceledAt.Some?
                  && company.activeSubscription.canceledAt.value > now)
    ensures company.activeSubscription.status == Billing.Canceling ==> !KeepsPlan(company, now)
  {
  }

  /** A company cancelled at `t` has lost its plan for every update of its
      promotions, at any time, even while its paid period lasts. */
  lemma CancelDropsPlan(company: Billing.Company, t: int, now: int)
    ensures !KeepsPlan(Billing.CancelAt(company, t), now)
  {
  }

  /** Once the sweep has downgraded a company that had been cancelled at or
      before now, its promotions fall back to basic. */
  lemma SweptCancelledDropsPlan(company: Billing.Company, now: int)
    requires company.activeSubscription.canceledAt.Some?
    requires company.activeSubscription.canceledAt.value <= now
    ensures !KeepsPlan(Billing.Downgrade(company), now)
  {
  }

  /** Reactivation or an upgrade gives the plan back. */
  lemma ReactivatedKeepsPlan(company: Billing.Company, now: int, newPlanId: Id,
                             updated: Billing.ProviderSubscription)
    requires |updated.itemIds| > 0
    ensures KeepsPlan(Billing.Reactivate(company), now)
    ensures KeepsPlan(Billing.Upgraded(company, newPlanId, updated), now)
    ensures PromotionTier(Billing.Upgraded(company, newPlanId, updated), now, []) == Tier(Some(newPlanId))
  {
  }

  // ---------------------------------------------------------------------------
  // searchNearbyEvents and getEventsByUserId

  /** One result of the `$geoNear` stage: a document and its distance in
      metres from the query point. */
  datatype Located = Located(doc: EventDoc, distance: int)

  predicate MatchesSearch(e: EventDoc, eventType: string)
  {
    e.eventType == Some(eventType) && e.status == Some(Published)
  }

  /** The `$match` stage: keep, in order, the published events of the type. */
  function MatchStage(nearby: seq<Located>, eventType: string): (r: seq<Located>)
    ensures |r| <= |nearby|
    ensures forall k :: 0 <= k < |r| ==> MatchesSearch(r[k].doc, eventType) && r[k] in nearby
    ensures forall x :: x in nearby && MatchesSearch(x.doc, eventType) ==> x in r
  {
    if |nearby| == 0 then []
    else
      var rest := MatchStage(nearby[1..], eventType);
      if MatchesSearch(nearby[0].doc, eventType) then [nearby[0]] + rest else rest
  }

  lemma {:induction false} MatchStageAppend(a: seq<Located>, b: seq<Located>, eventType: string)
    ensures MatchStage(a + b, eventType) == MatchStage(a, eventType) + MatchStage(b, eventType)
  {
    if |a| == 0 {
      assert a + b == b;
    } else {
      assert (a + b)[1..] == a[1..] + b;
      MatchStageAppend(a[1..], b, eventType);
    }
  }

  predicate SortedByDistance(s: seq<Located>)
  {
    forall i, j :: 0 <= i < j < |s| ==> s[i].distance <= s[j].distance
  }

  /** The filter keeps the nearest-first order and the radius of `$geoNear`. */
  lemma {:induction false} MatchStageKeepsOrder(nearby: seq<Located>, eventType: string, radius: int)
    requires SortedByDistance(nearby)
    requires forall k :: 0 <= k < |nearby| ==> nearby[k].distance <= radius
    ensures SortedByDistance(MatchStage(nearby, eventType))
    ensures forall x :: x in MatchStage(nearby, eventType) ==> x.distance <= radius
  {
    if |nearby| > 0 {
      MatchStageKeepsOrder(nearby[1..], eventType, radius);
      var rest := MatchStage(nearby[1..], eventType);
      forall k | 0 <= k < |rest|
        ensures nearby[0].distance <= rest[k].distance
      {
        assert rest[k] in nearby[1..];
      }
    }
  }

  datatype SearchReply = MissingCoordinates | Found(events: seq<Located>)
  {
    function Status(): (c: Code)
    {
      if MissingCoordinates? then BadRequest else Ok
    }
  }

  /** `searchNearbyEvents` after its `$geoNear` stage, whose output within
      `NearbyRadius` is `nearby`: a missing or empty latitude or longitude is
      refused, the event type defaults to `promotion` when absent. */
  function SearchNearby(lat: Option<string>, lng: Option<string>, eventType: Option<string>,
                        nearby: seq<Located>): (r: SearchReply)
    ensures r.MissingCoordinates? <==> !Truthy(lat) || !Truthy(lng)
    ensures r.Status() == BadRequest <==> !Truthy(lat) || !Truthy(lng)
    ensures r.Found? ==>
              var wanted := if eventType.Some? then eventType.value else PromotionType;
              && (forall k :: 0 <= k < |r.events| ==>
                    r.events[k] in nearby
                    && r.events[k].doc.status == Some(Published)
                    && r.events[k].doc.eventType == Some(wanted))
              && (forall x :: x in nearby && MatchesSearch(x.doc, wanted) ==> x in r.events)
              && r.events == MatchStage(nearby, wanted)
  {
    if !Truthy(lat) || !Truthy(lng) then MissingCoordinates
    else
      var wanted := if eventType.Some? then eventType.value else PromotionType;
      Found(MatchStage(nearby, wanted))
  }

  /** A geo stage output sorted nearest first and within `NearbyRadius`
      gives an answer sorted nearest first and within `NearbyRadius`. */
  lemma SearchNearbyNearestFirst(lat: Option<string>, lng: Option<string>, eventType: Option<string>,
                                 nearby: seq<Located>)
    requires SortedByDistance(nearby)
    requires forall k :: 0 <= k < |nearby| ==> nearby[k].distance <= NearbyRadius
    ensures SearchNearby(lat, lng, eventType, nearby).Found? ==>
              var found := SearchNearby(lat, lng, eventType, nearby).events;
              SortedByDistance(found) && forall x :: x in found ==> x.distance <= NearbyRadius
  {
    var wanted := if eventType.Some? then eventType.value else PromotionType;
    MatchStageKeepsOrder(nearby, wanted, NearbyRadius);
  }

  datatype ByUserReply = NoEvents | UserEvents(events: seq<EventDoc>)

  function EventsOf(stored: seq<EventDoc>, userId: Id): (r: seq<EventDoc>)
    ensures forall k :: 0 <= k < |r| ==> r[k].userId == Some(userId) && r[k] in stored
    ensures forall e :: e in stored && e.userId == Some(userId) ==> e in r
  {
    if |stored| == 0 then []
    else
      var rest := EventsOf(stored[1..], userId);
      if stored[0].userId == Some(userId) then [stored[0]] + rest else rest
  }

  /** `getEventsByUserId` over the collection in storage order: success in
      both cases, with an empty result when the user has no events. */
  function EventsByUserId(stored: seq<EventDoc>, userId: Id): (r: ByUserReply)
    ensures r.NoEvents? <==> forall k :: 0 <= k < |stored| ==> stored[k].userId != Some(userId)
    ensures r.UserEvents? ==> |r.events| > 0 && r.events == EventsOf(stored, userId)
  {
    var found := EventsOf(stored, userId);
    if |found| == 0 then
      assert forall k :: 0 <= k < |stored| ==> stored[k] in stored;
      NoEvents
    else
      assert found[0] in stored && found[0].userId == Some(userId);
      UserEvents(found)
  }

  // ---------------------------------------------------------------------------
  // The handlers that write events

  datatype UpdateReply = UpdateReply(status: Code, event: Option<EventDoc>)

  class EventStore {
    var events: map<Id, EventDoc>

    constructor (initial: map<Id, EventDoc>)
      ensures events == initial
    {
      events := initial;
    }

    /** `createPromotion`: store the body under the new document id with its
        type forced to `promotion`. */
    method CreatePromotion(newId: Id, body: EventDoc) returns (reply: UpdateReply)
      requires newId !in events
      modifies this
      ensures events == old(events)[newId := AsPromotion(body)]
      ensures reply == UpdateReply(Created, Some(AsPromotion(body)))
    {
      var doc := AsPromotion(body);
      events := events[newId := doc];
      reply := UpdateReply(Created, Some(doc));
    }

    /** `updateEvent`: apply the body (this write is kept whatever follows),
        then, for a promotion, recompute its plan from the owning company. */
    method UpdateEvent(id: Id, body: EventDoc, companies: map<Id, Billing.Company>,
                       plans: seq<Plan>, now: int)
      returns (reply: UpdateReply)
      modifies this
      ensures id !in old(events) ==> reply == UpdateReply(NotFound, None) && events == old(events)
      ensures id in old(events) ==>
                var merged := Merge(old(events)[id], body);
                if merged.eventType != Some(PromotionType) then
                  reply == UpdateReply(Ok, Some(merged)) && events == old(events)[id := merged]
                else if merged.userId.None? || merged.userId.value !in companies then
                  reply == UpdateReply(NotFound, None) && events == old(events)[id := merged]
                else
                  var tier := PromotionTier(companies[merged.userId.value], now, plans);
                  if tier.NoBasicPlan? then
                    reply == UpdateReply(ServerError, None) && events == old(events)[id := merged]
                  else
                    var updated := merged.(subscription := tier.subscription);
                    reply == UpdateReply(Ok, Some(updated)) && events == old(events)[id := updated]
    {
      if id !in events {
        return UpdateReply(NotFound, None);
      }
      var event := Merge(events[id], body);
      events := events[id := event];
      if event.eventType == Some(PromotionType) {
        if event.userId.None? || event.userId.value !in companies {
          return UpdateReply(NotFound, None);
        }
        var tier := PromotionTier(companies[event.userId.value], now, plans);
        if tier.NoBasicPlan? {
          return UpdateReply(ServerError, None);
        }
        event := event.(subscription := tier.subscription);
        events := events[id := event];
      }
      reply := UpdateReply(Ok, Some(event));
    }

    /** `updateEventByAdmin`: publish the event at the optima tier. Without
        an `optima` plan it fails before the event is looked up; an `event`
        without an `optima plus` payment tier fails while reading its id. */
    method UpdateEventByAdmin(id: Id, plans: seq<Plan>, payments: seq<Plan>)
      returns (reply: UpdateReply)
      modifies this
      ensures FindByName(plans, OptimaPlan).None? ==>
                reply == UpdateReply(ServerError, None) && events == old(events)
      ensures FindByName(plans, OptimaPlan).Some? && id !in old(events) ==>
                reply == UpdateReply(NotFound, None) && events == old(events)
      ensures FindByName(plans, OptimaPlan).Some? && id in old(events)
              && old(events)[id].eventType == Some(EventType)
              && FindByName(payments, OptimaPlusPayment).None? ==>
                reply == UpdateReply(ServerError, None) && events == old(events)
      ensures reply.status == Ok ==>
                && id in old(events) && reply.event.Some?
                && events == old(events)[id := reply.event.value]
                && reply.event.value.status == Some(Published)
                && (old(events)[id].eventType == Some(PromotionType) ==>
                      reply.event.value.subscription == Some(FindByName(plans, OptimaPlan).value.id))
                && (old(events)[id].eventType == Some(EventType) ==>
                      reply.event.value.payment == Some(FindByName(payments, OptimaPlusPayment).value.id))
                && (old(events)[id].eventType != Some(PromotionType) ==>
                      reply.event.value.subscription == old(events)[id].subscription)
                && (old(events)[id].eventType != Some(EventType) ==>
                      reply.event.value.payment == old(events)[id].payment)
                && reply.event.value == old(events)[id].(
                     status := reply.event.value.status,
                     subscription := reply.event.value.subscription,
                     payment := reply.event.value.payment)
      ensures reply.status == Ok || reply.status == NotFound || reply.status == ServerError
      ensures reply.status != Ok ==> events == old(events)
      ensures FindByName(plans, OptimaPlan).Some? && id in old(events)
              && (old(events)[id].eventType == Some(EventType) ==> FindByName(payments, OptimaPlusPayment).Some?)
              ==> reply.status == Ok
    {
      var optima := FindByName(plans, OptimaPlan);
      if optima.None? {
        return UpdateReply(ServerError, None);
      }
      var paymentPlan := FindByName(payments, OptimaPlusPayment);
      if id !in events {
        return UpdateReply(NotFound, None);
      }
      var event := events[id];
      if event.eventType == Some(PromotionType) {
        event := event.(subscription := Some(optima.value.id));
      }
      if event.eventType == Some(EventType) {
        if paymentPlan.None? {
          return UpdateReply(ServerError, None);
        }
        event := event.(payment := Some(paymentPlan.value.id));
      }
      event := event.(status := Some(Published));
      events := events[id := event];
      reply := UpdateReply(Ok, Some(event));
    }
  }
}

/** The local subscription state machine of backend/api/controllers/subscription.controller.js.

    A company document carries a mirror of its billing-provider subscription
    (`activeSubscription`) and the provider's identifiers (`stripe`). The
    handlers read a company, call the provider, and write the company back;
    here the company collection is a map from id to record and every provider
    response is a parameter. Dates are epoch milliseconds. */
module Billing {
  import opened Common

  datatype SubStatus = Active | Canceling | Canceled

  /** `company.activeSubscription`. */
  datatype Snapshot = Snapshot(
    status: SubStatus,
    plan: Option<Id>,
    currentPeriodStart: Option<int>,
    currentPeriodEnd: Option<int>,
    cancelAtPeriodEnd: Option<bool>,
    canceledAt: Option<int>)

  /** `company.stripe`. */
  datatype ProviderIds = ProviderIds(
    customerId: Option<Id>,
    subscriptionId: Option<Id>,
    subscriptionItemId: Option<Id>)

  datatype Company = Company(role: string, activeSubscription: Snapshot, stripe: ProviderIds)

  /** Provider objects, reduced to the fields the handlers read. Period
      bounds are epoch seconds, as the provider returns them. */
  datatype Customer = Customer(id: Id)
  datatype CheckoutSession = CheckoutSession(id: Id, subscription: Option<Id>)
  datatype ProviderSubscription = ProviderSubscription(
    id: Id,
    itemIds: seq<Id>,
    currentPeriodStart: int,
    currentPeriodEnd: int)

  const BasicRole := "basic"

  // ---------------------------------------------------------------------------
  // Local transitions, one per handler

  /** The write `cancelSubscription` makes once the provider accepted
      cancel-at-period-end. */
  function CancelAt(c: Company, now: int): (r: Company)
    ensures r.activeSubscription.status == Canceling
    ensures r.activeSubscription.cancelAtPeriodEnd == Some(true)
    ensures r.activeSubscription.canceledAt == Some(now)
    ensures r.activeSubscription.plan == c.activeSubscription.plan
    ensures r.activeSubscription.currentPeriodStart == c.activeSubscription.currentPeriodStart
    ensures r.activeSubscription.currentPeriodEnd == c.activeSubscription.currentPeriodEnd
    ensures r.role == c.role && r.stripe == c.stripe
  {
    c.(activeSubscription := c.activeSubscription.(
      status := Canceling, cancelAtPeriodEnd := Some(true), canceledAt := Some(now)))
  }

  /** The write `reactivateSubscription` makes. */
  function Reactivate(c: Company): (r: Company)
    ensures r.activeSubscription.status == Active
    ensures r.activeSubscription.cancelAtPeriodEnd == Some(false)
    ensures r.activeSubscription.canceledAt == None
    ensures r.activeSubscription.plan == c.activeSubscription.plan
    ensures r.activeSubscription.currentPeriodStart == c.activeSubscription.currentPeriodStart
    ensures r.activeSubscription.currentPeriodEnd == c.activeSubscription.currentPeriodEnd
    ensures r.role == c.role && r.stripe == c.stripe
  {
    c.(activeSubscription := c.activeSubscription.(
      status := Active, cancelAtPeriodEnd := Some(false), canceledAt := None))
  }

  /** The write `upgradeSubscription` makes from the provider's updated
      subscription: the whole snapshot is replaced (so `cancelAtPeriodEnd`
      and `canceledAt` are dropped) and the provider ids are refreshed. */
  function Upgraded(c: Company, newPlanId: Id, updated: ProviderSubscription): (r: Company)
    requires |updated.itemIds| > 0
    ensures r.activeSubscription.status == Active
    ensures r.activeSubscription.plan == Some(newPlanId)
    ensures r.activeSubscription.currentPeriodStart == Some(updated.currentPeriodStart * 1000)
    ensures r.activeSubscription.currentPeriodEnd == Some(updated.currentPeriodEnd * 1000)
    ensures r.activeSubscription.cancelAtPeriodEnd == None && r.activeSubscription.canceledAt == None
    ensures r.stripe.subscriptionId == Some(updated.id)
    ensures r.stripe.subscriptionItemId == Some(updated.itemIds[0])
    ensures r.stripe.customerId == c.stripe.customerId && r.role == c.role
  {
    c.(activeSubscription := Snapshot(Active, Some(newPlanId),
                                      Some(updated.currentPeriodStart * 1000),
                                      Some(updated.currentPeriodEnd * 1000), None, None),
       stripe := c.stripe.(subscriptionId := Some(updated.id),
                           subscriptionItemId := Some(updated.itemIds[0])))
  }

  /** The match of the expiry sweep's query: a period end at or before
      today's midnight and a status of `active` or `canceling`. A company
      without a period end does not match `$lte`. */
  predicate Expired(c: Company, today: int): (expired: bool)
    ensures c.activeSubscription.status == Canceled ==> !expired
    ensures c.activeSubscription.currentPeriodEnd.None? ==> !expired
  {
    && c.activeSubscription.currentPeriodEnd.Some?
    && c.activeSubscription.currentPeriodEnd.value <= today
    && (c.activeSubscription.status == Active || c.activeSubscription.status == Canceling)
  }

  /** What the sweep writes to each matched company. */
  function Downgrade(c: Company): (r: Company)
    ensures r.activeSubscription.status == Canceled && r.role == BasicRole
    ensures r.activeSubscription.(status := c.activeSubscription.status) == c.activeSubscription
    ensures r.stripe == c.stripe
  {
    c.(activeSubscription := c.activeSubscription.(status := Canceled), role := BasicRole)
  }

  function ExpiredIds(m: map<Id, Company>, today: int): (ids: set<Id>)
    ensures forall id :: id in ids <==> id in m && Expired(m[id], today)
  {
    set id | id in m && Expired(m[id], today)
  }

  /** The collection after the companies named in `ids` were downgraded. */
  function SweepIds(m: map<Id, Company>, ids: set<Id>): (r: map<Id, Company>)
    ensures r.Keys == m.Keys
    ensures forall id :: id in m && id in ids ==> r[id] == Downgrade(m[id])
    ensures forall id :: id in m && id !in ids ==> r[id] == m[id]
  {
    map id | id in m :: if id in ids then Downgrade(m[id]) else m[id]
  }

  /** The collection after a sweep that ran to the end. */
  function Swept(m: map<Id, Company>, today: int): (r: map<Id, Company>)
    ensures r.Keys == m.Keys
    ensures forall id :: id in m && Expired(m[id], today) ==> r[id] == Downgrade(m[id])
    ensures forall id :: id in m && !Expired(m[id], today) ==> r[id] == m[id]
  {
    SweepIds(m, ExpiredIds(m, today))
  }

  // ---------------------------------------------------------------------------
  // Properties of the transitions

  /** Reactivation undoes a cancellation: whatever the state before, cancel
      then reactivate leaves what reactivate alone leaves. */
  lemma ReactivateUndoesCancel(c: Company, now: int)
    ensures Reactivate(CancelAt(c, now)) == Reactivate(c)
  {
  }

  /** From an active, not-cancelling state, cancel then reactivate is the
      identity. */
  lemma CancelReactivateRoundTrip(c: Company, now: int)
    requires c.activeSubscription.status == Active
    requires c.activeSubscription.cancelAtPeriodEnd == Some(false)
    requires c.activeSubscription.canceledAt == None
    ensures Reactivate(CancelAt(c, now)) == c
  {
  }

  lemma ReactivateIdempotent(c: Company)
    ensures Reactivate(Reactivate(c)) == Reactivate(c)
  {
  }

  /** A company is changed by the sweep exactly when it matched, and then it
      is `canceled` with role `basic`. */
  lemma {:induction false} SweepChangesExactlyExpired(m: map<Id, Company>, today: int, id: Id)
    requires id in m
    ensures id in Swept(m, today)
    ensures Swept(m, today)[id] != m[id] <==> Expired(m[id], today)
    ensures Expired(m[id], today) ==>
              Swept(m, today)[id].activeSubscription.status == Canceled
              && Swept(m, today)[id].role == BasicRole
  {
    if Expired(m[id], today) {
      assert Swept(m, today)[id].activeSubscription.status == Canceled;
      assert m[id].activeSubscription.status != Canceled;
    }
  }

  /** No company matches the sweep's query right after a completed sweep. */
  lemma {:induction false} NothingExpiredAfterSweep(m: map<Id, Company>, today: int)
    ensures ExpiredIds(Swept(m, today), today) == {}
  {
    var r := Swept(m, today);
    forall id | id in r
      ensures !Expired(r[id], today)
    {
      if id in ExpiredIds(m, today) {
        assert r[id] == Downgrade(m[id]);
      } else {
        assert r[id] == m[id];
      }
    }
  }

  /** A second sweep with the same `today` changes nothing. */
  lemma {:induction false} SweepIdempotent(m: map<Id, Company>, today: int)
    ensures Swept(Swept(m, today), today) == Swept(m, today)
  {
    NothingExpiredAfterSweep(m, today);
    var r := Swept(m, today);
    assert SweepIds(r, {}) == r;
  }

  /** Sweeping on an earlier day and then on a later one ends where a single
      sweep on the later day ends. */
  lemma {:induction false} LaterSweepSubsumesEarlier(m: map<Id, Company>, day1: int, day2: int)
    requires day1 <= day2
    ensures Swept(Swept(m, day1), day2) == Swept(m, day2)
  {
    var r1 := Swept(m, day1);
    var lhs := Swept(r1, day2);
    var rhs := Swept(m, day2);
    forall id | id in m
      ensures lhs[id] == rhs[id]
    {
      if Expired(m[id], day1) {
        assert Expired(m[id], day2);
        assert r1[id] == Downgrade(m[id]);
        assert !Expired(r1[id], day2);
      } else {
        assert r1[id] == m[id];
      }
    }
    assert lhs.Keys == rhs.Keys;
  }

  // ---------------------------------------------------------------------------
  // The handlers

  /** What `createSubscription` answers. */
  datatype CreateReply =
    | CompanyMissing                       // 404
    | CreateFailed                         // 500, a provider call threw
    | SessionOpened(sessionId: Id, customerId: Id, createdCustomer: bool)
  {
    function Status(): (c: Code)
    {
      match this
      case CompanyMissing => NotFound
      case CreateFailed => ServerError
      case SessionOpened(_, _, _) => Ok
    }
  }

  /** What `cancelSubscription` and `reactivateSubscription` answer. */
  datatype ChangeReply =
    | NoActiveSubscription                 // 404
    | ChangeFailed                         // 500, the provider update threw
    | CancelScheduled(cancelDate: int)     // 200, epoch milliseconds
    | Reactivated(subscription: ProviderSubscription)

  /** What `upgradeSubscription` answers. */
  datatype UpgradeReply =
    | UpgradeCompanyMissing                // 404
    | UpgradeFailed                        // 500
    | PaymentLink(url: string)             // 200, activation deferred to the link
    | UpgradedTo(subscription: ProviderSubscription)

  /** The company collection as the subscription handlers see it. */
  class CompanyStore {
    var companies: map<Id, Company>

    constructor (initial: map<Id, Company>)
      ensures companies == initial
    {
      companies := initial;
    }

    /** `createSubscription`: reuse the stored provider customer when there is
        one (`retrieved` is the provider's answer to the lookup), otherwise
        create one (`created`); open a checkout session for the plan and store
        the session's subscription id. `saveFails` says that the final
        `company.save()` throws. */
    method CreateSubscription(userId: Id, retrieved: Call<Customer>, created: Call<Customer>,
                              session: Call<CheckoutSession>, saveFails: bool)
      returns (reply: CreateReply)
      modifies this
      ensures userId !in old(companies) ==> reply == CompanyMissing && companies == old(companies)
      ensures reply.Status() == NotFound <==> userId !in old(companies)
      ensures userId in old(companies) ==>
                var c := old(companies)[userId];
                var reuse := Truthy(c.stripe.customerId);
                var customer := if reuse then retrieved else created;
                if customer.Threw? || session.Threw? || saveFails then
                  reply == CreateFailed && companies == old(companies)
                else
                  && reply == SessionOpened(session.value.id, customer.value.id, !reuse)
                  && companies == old(companies)[userId := c.(
                       stripe := c.stripe.(subscriptionId := session.value.subscription))]
      ensures !reply.SessionOpened? ==> companies == old(companies)
    {
      if userId !in companies {
        return CompanyMissing;
      }
      var company := companies[userId];
      var reuse := Truthy(company.stripe.customerId);
      var customer := if reuse then retrieved else created;
      if customer.Threw? || session.Threw? {
        return CreateFailed;
      }
      company := company.(stripe := company.stripe.(subscriptionId := session.value.subscription));
      if saveFails {
        return CreateFailed;
      }
      companies := companies[userId := company];
      reply := SessionOpened(session.value.id, customer.value.id, !reuse);
    }

    /** `cancelSubscription`: ask the provider to cancel at period end, then
        mark the company `canceling` as of `now`. When the provider accepted
        but `company.save()` throws (`saveFails`), the answer is 500 and the
        stored record still shows the subscription as it was. */
    method CancelSubscription(companyId: Id, now: int, update: Call<ProviderSubscription>, saveFails: bool)
      returns (reply: ChangeReply)
      modifies this
      ensures (companyId !in old(companies) || !Truthy(old(companies)[companyId].stripe.subscriptionId))
              ==> reply == NoActiveSubscription && companies == old(companies)
      ensures companyId in old(companies) && Truthy(old(companies)[companyId].stripe.subscriptionId)
              ==> if update.Threw? || saveFails then reply == ChangeFailed && companies == old(companies)
                  else reply == CancelScheduled(update.value.currentPeriodEnd * 1000)
                       && companies == old(companies)[companyId := CancelAt(old(companies)[companyId], now)]
    {
      if companyId !in companies || !Truthy(companies[companyId].stripe.subscriptionId) {
        return NoActiveSubscription;
      }
      if update.Threw? || saveFails {
        return ChangeFailed;
      }
      companies := companies[companyId := CancelAt(companies[companyId], now)];
      reply := CancelScheduled(update.value.currentPeriodEnd * 1000);
    }

    /** `reactivateSubscription`: ask the provider to keep the subscription,
        then mark the company `active` again; a throwing save leaves the
        record as it was and answers 500, as in `cancelSubscription`. */
    method ReactivateSubscription(companyId: Id, update: Call<ProviderSubscription>, saveFails: bool)
      returns (reply: ChangeReply)
      modifies this
      ensures (companyId !in old(companies) || !Truthy(old(companies)[companyId].stripe.subscriptionId))
              ==> reply == NoActiveSubscription && companies == old(companies)
      ensures companyId in old(companies) && Truthy(old(companies)[companyId].stripe.subscriptionId)
              ==> if update.Threw? || saveFails then reply == ChangeFailed && companies == old(companies)
                  else reply == Reactivated(update.value)
                       && companies == old(companies)[companyId := Reactivate(old(companies)[companyId])]
    {
      if companyId !in companies || !Truthy(companies[companyId].stripe.subscriptionId) {
        return NoActiveSubscription;
      }
      if update.Threw? || saveFails {
        return ChangeFailed;
      }
      companies := companies[companyId := Reactivate(companies[companyId])];
      reply := Reactivated(update.value);
    }

    /** `upgradeSubscription`. `listed` is the provider's list of the
        customer's active subscriptions (asked for only when a customer id is
        stored), `link` the payment link it creates when there is none,
        `updated` its answer to the in-place price swap and `saveFails` says
        that the final `company.save()` throws. */
    method UpgradeSubscription(companyId: Id, newPlanId: Id,
                               listed: Call<seq<ProviderSubscription>>, link: Call<string>,
                               updated: Call<ProviderSubscription>, saveFails: bool)
      returns (reply: UpgradeReply)
      modifies this
      ensures companyId !in old(companies) ==> reply == UpgradeCompanyMissing
      ensures !reply.UpgradedTo? ==> companies == old(companies)
      // Without a stored customer, or when the provider lists no active
      // subscription, the answer is a payment link, or 500 if creating it threw.
      ensures companyId in old(companies)
              && (!Truthy(old(companies)[companyId].stripe.customerId)
                  || (listed.Returned? && |listed.value| == 0))
              ==> reply == if link.Returned? then PaymentLink(link.value) else UpgradeFailed
      // A stored customer whose subscription list cannot be read: 500.
      ensures companyId in old(companies) && Truthy(old(companies)[companyId].stripe.customerId)
              && listed.Threw?
              ==> reply == UpgradeFailed
      // An active subscription exists: it is swapped in place, unless a call
      // throws or a subscription has no item to read.
      ensures companyId in old(companies) && Truthy(old(companies)[companyId].stripe.customerId)
              && listed.Returned? && |listed.value| > 0
              ==> if |listed.value[0].itemIds| > 0 && updated.Returned? && |updated.value.itemIds| > 0
                     && !saveFails
                  then reply == UpgradedTo(updated.value)
                       && companies == old(companies)[companyId := Upgraded(old(companies)[companyId], newPlanId, updated.value)]
                  else reply == UpgradeFailed
    {
      if companyId !in companies {
        return UpgradeCompanyMissing;
      }
      var company := companies[companyId];
      var current: Option<ProviderSubscription> := None;
      if Truthy(company.stripe.customerId) {
        if listed.Threw? {
          return UpgradeFailed;
        }
        if |listed.value| > 0 {
          current := Some(listed.value[0]);
        }
      }
      if current.None? {
        if link.Threw? {
          return UpgradeFailed;
        }
        return PaymentLink(link.value);
      }
      // Reading the first item of either subscription throws when it has none.
      if |current.value.itemIds| == 0 || updated.Threw? || |updated.value.itemIds| == 0 || saveFails {
        return UpgradeFailed;
      }
      companies := companies[companyId := Upgraded(company, newPlanId, updated.value)];
      reply := UpgradedTo(updated.value);
    }

    /** `updateExpiredSubscriptions`: every company matched by the query is
        set to `canceled` with role `basic`, one save at a time. A save that
        throws ends the whole sweep (the handler's catch is outside the
        loop); `saveFails` names the companies whose save would throw.
        `swept` is the set of companies actually written. */
    method UpdateExpiredSubscriptions(today: int, saveFails: set<Id>) returns (swept: set<Id>)
      modifies this
      ensures swept <= ExpiredIds(old(companies), today)
      ensures swept !! saveFails
      ensures companies == SweepIds(old(companies), swept)
      ensures swept == ExpiredIds(old(companies), today)
              || (ExpiredIds(old(companies), today) - swept) * saveFails != {}
    {
      var pending := ExpiredIds(companies, today);
      ghost var matched := pending;
      ghost var start := companies;
      swept := {};
      while pending != {}
        invariant pending <= matched && swept == matched - pending
        invariant swept !! saveFails
        invariant companies == SweepIds(start, swept)
        decreases pending
      {
        var id :| id in pending;
        if id in saveFails {
          assert id in (matched - swept) * saveFails;
          return;
        }
        companies := companies[id := Downgrade(companies[id])];
        swept := swept + {id};
        pending := pending - {id};
      }
    }
  }

  /** A sweep whose saves all succeed leaves exactly the collection `Swept`
      describes. */
  lemma {:induction false} SweepWithoutFailuresIsComplete(m: map<Id, Company>, today: int,
                                                          saveFails: set<Id>, swept: set<Id>)
    requires ExpiredIds(m, today) !! saveFails
    requires swept <= ExpiredIds(m, today)
    requires swept == ExpiredIds(m, today) || (ExpiredIds(m, today) - swept) * saveFails != {}
    ensures SweepIds(m, swept) == Swept(m, today)
  {
    if swept != ExpiredIds(m, today) {
      assert false;
    }
  }
}

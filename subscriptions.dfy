/**
 * Customer subscriptions: a plan fixes how long a subscription runs from
 * the moment it is added, and a subscription can later be deactivated.
 * Times are whole seconds on the caller's clock.
 */
module Subscriptions {
  import opened Wrappers

  const SecondsPerDay: nat := 86400

  /** Days a plan runs: Weekly 7, Monthly 30, Quarterly 90, Yearly 365; no other plan exists. */
  function PlanDays(plan: string): (d: Option<nat>)
    ensures d.Some? <==> plan in {"Weekly", "Monthly", "Quarterly", "Yearly"}
    ensures d.Some? ==> 7 <= d.value <= 365
  {
    if plan == "Weekly" then Some(7)
    else if plan == "Monthly" then Some(30)
    else if plan == "Quarterly" then Some(90)
    else if plan == "Yearly" then Some(365)
    else None
  }

  /** A longer plan never ends sooner. */
  lemma PlansAreOrdered()
    ensures PlanDays("Weekly").value < PlanDays("Monthly").value < PlanDays("Quarterly").value < PlanDays("Yearly").value
  {
  }

  datatype Subscription = Subscription(customer: nat, code: string, plan: string, start: int, end: int, active: bool)

  /** The subscriptions offered for deactivation: the active ones. */
  function ActiveIds(rows: map<nat, Subscription>): (ids: set<nat>)
    ensures forall id :: id in ids <==> id in rows && rows[id].active
  {
    set id | id in rows && rows[id].active
  }

  /** Deactivating one subscription takes exactly that one off the list. */
  lemma DeactivateRemovesOne(rows: map<nat, Subscription>, id: nat)
    requires id in rows
    ensures ActiveIds(rows[id := rows[id].(active := false)]) == ActiveIds(rows) - {id}
  {
  }

  class SubscriptionBook {
    var rows: map<nat, Subscription>
    var nextId: nat

    /** Codes are unique, every subscription ends after it starts, and ids are below the next one. */
    ghost predicate Valid()
      reads this
    {
      (forall id :: id in rows ==> id < nextId && rows[id].start < rows[id].end)
      && (forall i, j :: i in rows && j in rows && i != j ==> rows[i].code != rows[j].code)
    }

    predicate CodeTaken(code: string)
      reads this
    {
      exists id :: id in rows && rows[id].code == code
    }

    constructor ()
      ensures Valid() && rows == map[]
    {
      rows := map[];
      nextId := 1;
    }

    /**
     * Adds an active subscription running from `now` for the plan's days.
     * An unknown plan or a code already in use adds nothing and gives false.
     */
    method AddSubscription(customer: nat, code: string, plan: string, now: int) returns (ok: bool)
      requires Valid()
      modifies this
      ensures Valid()
      ensures ok <==> PlanDays(plan).Some? && !old(CodeTaken(code))
      ensures ok ==> rows == old(rows)[old(nextId) := Subscription(customer, code, plan, now,
                                                                  now + PlanDays(plan).value * SecondsPerDay, true)]
      ensures !ok ==> rows == old(rows)
    {
      var days := PlanDays(plan);
      if days.None? {
        return false;
      }
      if CodeTaken(code) {
        return false;
      }
      rows := rows[nextId := Subscription(customer, code, plan, now, now + days.value * SecondsPerDay, true)];
      nextId := nextId + 1;
      return true;
    }

    /** Marks one subscription inactive; every other row, and every other field, stays as it was. */
    method Deactivate(id: nat) returns (ok: bool)
      requires Valid()
      modifies this
      ensures Valid() && ok
      ensures id in old(rows) ==> rows == old(rows)[id := old(rows)[id].(active := false)]
      ensures id !in old(rows) ==> rows == old(rows)
    {
      if id in rows {
        rows := rows[id := rows[id].(active := false)];
      }
      return true;
    }
  }
}

/** The customer-id part of the checkout helper: a user gets a payment
    processor customer id at most once, and the table is written only when a
    new id is created. */
module Checkout {
  import opened UsageData

  /** `data.get(u, {}).get("stripe_customer_id")`, as a key-presence option. */
  function CustomerOf(s: Entries, u: UserId): Option<string> {
    match Lookup(s, u)
    case Some(rec) => rec.customerId
    case None => None
  }

  /** The helper creates a customer (and saves) only when the user has none. */
  predicate NeedsCustomer(s: Entries, u: UserId) {
    CustomerOf(s, u).None?
  }

  /** The table after provisioning `u`, where `newId` is the id the payment
      processor hands out for a newly created customer. */
  function Provisioned(s: Entries, u: UserId, newId: string): Entries {
    if NeedsCustomer(s, u) then Put(s, u, Lookup(s, u).GetOr(EmptyRecord).(customerId := Some(newId)))
    else s
  }

  /** The customer id the checkout session is then created for. */
  function ProvisionedId(s: Entries, u: UserId, newId: string): string {
    CustomerOf(s, u).GetOr(newId)
  }

  /** After provisioning, `u` has exactly the id the session was built with;
      an existing id is kept, never overwritten. */
  lemma ProvisionSetsOnce(s: Entries, u: UserId, newId: string)
    ensures CustomerOf(Provisioned(s, u, newId), u) == Some(ProvisionedId(s, u, newId))
    ensures CustomerOf(s, u).Some? ==> ProvisionedId(s, u, newId) == CustomerOf(s, u).value
    ensures CustomerOf(s, u).None? ==> ProvisionedId(s, u, newId) == newId
  {
    if NeedsCustomer(s, u) {
      PutLookup(s, u, Lookup(s, u).GetOr(EmptyRecord).(customerId := Some(newId)), u);
    }
  }

  /** A user the table did not know gets a record holding only the customer
      id (no `used`, no `subscribed`), appended after every existing user. */
  lemma ProvisionNewUser(s: Entries, u: UserId, newId: string)
    requires Lookup(s, u).None?
    ensures Provisioned(s, u, newId) == s + [(u, Record(None, None, Some(newId)))]
  {
  }

  /** Provisioning changes only the customer id of `u`: its `used` and
      `subscribed` keys are as before, and every other user is untouched. */
  lemma ProvisionFrame(s: Entries, u: UserId, newId: string, v: UserId)
    ensures v != u ==> Lookup(Provisioned(s, u, newId), v) == Lookup(s, v)
    ensures Lookup(s, u).Some? ==>
              Lookup(Provisioned(s, u, newId), u) == Some(Lookup(s, u).value.(customerId := Some(ProvisionedId(s, u, newId))))
  {
    if NeedsCustomer(s, u) {
      var rec := Lookup(s, u).GetOr(EmptyRecord).(customerId := Some(newId));
      PutLookup(s, u, rec, v);
      PutLookup(s, u, rec, u);
    }
  }

  /** Provisioning twice is provisioning once, whatever id the second call
      would have been offered. */
  lemma ProvisionIdempotent(s: Entries, u: UserId, newId: string, newId': string)
    ensures Provisioned(Provisioned(s, u, newId), u, newId') == Provisioned(s, u, newId)
    ensures ProvisionedId(Provisioned(s, u, newId), u, newId') == ProvisionedId(s, u, newId)
  {
    ProvisionSetsOnce(s, u, newId);
  }

  /** Provisioning keeps keys unique and existing users in their positions. */
  lemma ProvisionShape(s: Entries, u: UserId, newId: string)
    ensures UniqueKeys(s) ==> UniqueKeys(Provisioned(s, u, newId))
    ensures |s| <= |Provisioned(s, u, newId)|
    ensures forall i :: 0 <= i < |s| ==> Provisioned(s, u, newId)[i].0 == s[i].0
  {
    if NeedsCustomer(s, u) {
      PutShape(s, u, Lookup(s, u).GetOr(EmptyRecord).(customerId := Some(newId)));
    }
  }
}

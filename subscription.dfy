/** The table change made by the payment webhook for a completed checkout:
    the first record, in insertion order, whose customer id equals the
    event's customer is marked subscribed. */
module Subscription {
  import opened UsageData
  import opened Checkout

  /** The event type that triggers the change; every other type is ignored. */
  const CheckoutCompleted: string := "checkout.session.completed"

  /** `rec.get("stripe_customer_id") == cust`: a record without the key reads
      as None, so it matches only an event whose customer is None. */
  predicate Matches(e: Entry, customer: Option<string>) {
    e.1.customerId == customer
  }

  /** Position of the first record the webhook's scan stops at. */
  function FirstMatch(s: Entries, customer: Option<string>): (r: Option<nat>)
    ensures r.Some? ==> r.value < |s| && Matches(s[r.value], customer)
    ensures r.Some? ==> forall j :: 0 <= j < r.value ==> !Matches(s[j], customer)
    ensures r.None? ==> forall j :: 0 <= j < |s| ==> !Matches(s[j], customer)
  {
    if s == [] then None
    else if Matches(s[0], customer) then Some(0)
    else match FirstMatch(s[1..], customer)
      case None => None
      case Some(k) => Some(k + 1)
  }

  /** `rec["subscribed"] = True` on one record. */
  function WithSubscribed(e: Entry): Entry {
    (e.0, e.1.(subscribed := Some(true)))
  }

  /** The table the webhook saves for a completed checkout. */
  function Confirmed(s: Entries, customer: Option<string>): Entries {
    match FirstMatch(s, customer)
    case Some(k) => s[k := WithSubscribed(s[k])]
    case None => s
  }

  /** A scan that finds no match saves the table it loaded. */
  lemma ConfirmedNoMatch(s: Entries, customer: Option<string>)
    requires forall j :: 0 <= j < |s| ==> !Matches(s[j], customer)
    ensures Confirmed(s, customer) == s
  {
  }

  /** The record at the first match, and only that one, becomes subscribed;
      its other keys, every other record and the order of users are kept. */
  lemma ConfirmedFirstMatch(s: Entries, customer: Option<string>, k: nat)
    requires k < |s| && Matches(s[k], customer)
    requires forall j :: 0 <= j < k ==> !Matches(s[j], customer)
    ensures |Confirmed(s, customer)| == |s|
    ensures Confirmed(s, customer)[k] == (s[k].0, s[k].1.(subscribed := Some(true)))
    ensures forall j :: 0 <= j < |s| && j != k ==> Confirmed(s, customer)[j] == s[j]
  {
  }

  /** The webhook never adds, removes or reorders users. */
  lemma ConfirmedKeys(s: Entries, customer: Option<string>)
    ensures |Confirmed(s, customer)| == |s|
    ensures forall j :: 0 <= j < |s| ==> Confirmed(s, customer)[j].0 == s[j].0
    ensures UniqueKeys(s) ==> UniqueKeys(Confirmed(s, customer))
  {
  }

  /** No two records share a customer id. Ids come from the payment
      processor, which never hands out the same one twice. */
  ghost predicate DistinctCustomers(s: Entries) {
    forall i, j :: 0 <= i < j < |s| && s[i].1.customerId.Some? ==> s[i].1.customerId != s[j].1.customerId
  }

  /** Provisioning with an id no record holds keeps customer ids distinct. */
  lemma ProvisionKeepsDistinct(s: Entries, u: UserId, newId: string)
    requires UniqueKeys(s) && DistinctCustomers(s)
    requires forall j :: 0 <= j < |s| ==> s[j].1.customerId != Some(newId)
    ensures DistinctCustomers(Provisioned(s, u, newId))
  {
    if NeedsCustomer(s, u) {
      var rec := Lookup(s, u).GetOr(EmptyRecord).(customerId := Some(newId));
      var t := Provisioned(s, u, newId);
      assert t == Put(s, u, rec);
      match IndexOf(s, u)
      case Some(i) =>
        assert t == s[i := (u, rec)];
        LookupAt(s, i);
        assert s[i].1.customerId.None?;
      case None =>
        assert t == s + [(u, rec)];
    }
  }

  /** With distinct customer ids, confirming the id of user `u` marks exactly
      `u` subscribed and leaves every other user's record as it was. */
  lemma ConfirmedUser(s: Entries, u: UserId, v: UserId)
    requires UniqueKeys(s) && DistinctCustomers(s)
    requires CustomerOf(s, u).Some?
    ensures Lookup(Confirmed(s, CustomerOf(s, u)), u) == Some(Lookup(s, u).value.(subscribed := Some(true)))
    ensures v != u ==> Lookup(Confirmed(s, CustomerOf(s, u)), v) == Lookup(s, v)
  {
    var c := CustomerOf(s, u);
    var k := IndexOf(s, u).value;
    LookupAt(s, k);
    forall j | 0 <= j < k
      ensures !Matches(s[j], c)
    {
    }
    ConfirmedFirstMatch(s, c, k);
    var t := Confirmed(s, c);
    ConfirmedKeys(s, c);
    LookupAt(t, k);
    match IndexOf(s, v)
    case Some(i) =>
      LookupAt(s, i);
      LookupAt(t, i);
    case None =>
  }
}

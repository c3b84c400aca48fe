/** What the usage helpers evidently mean to do, beside what they do.

    As written, `increment_usage` and `mark_subscribed` save a fresh reload of
    the file, so no upload is ever recorded and no subscription is ever set by
    them; and the gate indexes `rec["used"]` directly, so a user whose only
    record came from the checkout helper gets a KeyError. This module states
    the consequences of the code as written, then the corrected table updates
    and the properties they were meant to have. */
module Corrections {
  import opened UsageData
  import opened Entitlement
  import opened Checkout
  import opened Subscription
  import opened Upload
  import opened App

  // ---------------------------------------------------------------------
  // The code as written

  /** No stored record has a `used` key. The empty table has this property,
      and no handler as written ever stores `used`. */
  ghost predicate NoUsageStored(s: Entries) {
    forall i :: 0 <= i < |s| ==> s[i].1.used.None?
  }

  /** Provisioning a customer and confirming a checkout never store `used`;
      the usage helpers as written leave the table as it was. */
  lemma NoUsageStoredPreserved(s: Entries, u: UserId, newId: string, customer: Option<string>)
    requires NoUsageStored(s)
    ensures NoUsageStored(Provisioned(s, u, newId))
    ensures NoUsageStored(Confirmed(s, customer))
  {
    if NeedsCustomer(s, u) {
      match Lookup(s, u)
      case Some(rec) =>
        var i := IndexOf(s, u).value;
        assert rec == s[i].1;
      case None =>
    }
  }

  /** Starting from a missing or empty usage file, the free limit is never
      enforced: a user without a record always gets past the gate, and a user
      whose record was made by the checkout helper always gets a KeyError. */
  lemma QuotaNeverEnforced(s: Entries, u: UserId, fileName: Option<string>,
                           walk: seq<seq<ExtractedFile>>, refactor: string -> Option<string>, url: string)
    requires NoUsageStored(s) && u != ""
    ensures var r := UploadResponse(s, Some(u), fileName, walk, refactor, url);
            !r.QuotaExceeded?
            && (Lookup(s, u).Some? ==> r == UncaughtKeyError("used"))
  {
    match IndexOf(s, u)
    case Some(i) =>
      assert s[i].1.used.None?;
    case None =>
  }

  /** A new user who opens the checkout page before uploading can no longer
      upload: the record the checkout helper stores has no `used` key. */
  lemma CheckoutThenUploadFails(s: Entries, u: UserId, newId: string, fileName: Option<string>,
                                walk: seq<seq<ExtractedFile>>, refactor: string -> Option<string>, url: string)
    requires u != "" && Lookup(s, u).None?
    ensures UploadResponse(Provisioned(s, u, newId), Some(u), fileName, walk, refactor, url) == UncaughtKeyError("used")
    ensures UploadResponse(Provisioned(s, u, newId), Some(u), fileName, walk, refactor, url).Status() == 500
  {
    PutLookup(s, u, EmptyRecord.(customerId := Some(newId)), u);
  }

  /** One .jsx file that the refactoring service rewrites. */
  function OneScript(): seq<seq<ExtractedFile>> {
    [[ExtractedFile("App.jsx", "class App extends React.Component {}")]]
  }

  function Rewrites(code: string): Option<string> {
    Some("const App = () => null;")
  }

  /** Against an empty table, uploading that archive succeeds with a count of 1. */
  lemma UploadOneScript(u: UserId, url: string)
    requires u != ""
    ensures UploadResponse([], Some(u), Some("src.zip"), OneScript(), Rewrites, url) == Archive(1)
  {
    var walk := OneScript();
    assert Walked(walk) == walk[0];
    assert walk[0][..0] == [];
    assert IsScriptName("App.jsx");
    assert IsZipName("src.zip");
  }

  /** A sequence of handler calls, as written: a new user uploads four
      archives and every upload succeeds, since nothing is ever recorded. */
  method LostIncrementWitness() {
    var u := "a@x.com";
    UploadOneScript(u, "https://checkout.example/1");
    var app := new UsageStore(false, []);
    var k := 0;
    while k < 4
      invariant app.Valid() && app.Data() == []
    {
      var r := app.Upload(Some(u), Some("src.zip"), OneScript(), Rewrites, "cus_1", "https://checkout.example/1");
      assert r == Archive(1);
      k := k + 1;
    }
  }

  /** A sequence of helper and handler calls, as written: a user at the limit
      is still asked to pay after `mark_subscribed`. */
  method LostSubscriptionWitness() {
    var u := "a@x.com";
    var rec := Record(Some(FREE_LIMIT), Some(false), Some("cus_2"));
    var atLimit := new UsageStore(true, [(u, rec)]);
    atLimit.MarkSubscribed(u);
    assert GetOrDefault(atLimit.Data(), u) == rec;
    var r := atLimit.Upload(Some(u), Some("src.zip"), OneScript(), Rewrites, "cus_3", "https://checkout.example/2");
    assert r == QuotaExceeded("https://checkout.example/2");
  }

  // ---------------------------------------------------------------------
  // The corrected helpers

  /** The number of uploads recorded for `u`; a missing key reads as 0. */
  function UsedCount(s: Entries, u: UserId): int {
    GetOrDefault(s, u).used.GetOr(0)
  }

  /** `increment_usage` as intended: add `amount` to the stored record (the
      default record for a new user) and save that table. */
  function RecordUsage(s: Entries, u: UserId, amount: int): Entries {
    var rec := GetOrDefault(s, u);
    Put(s, u, rec.(used := Some(rec.used.GetOr(0) + amount)))
  }

  /** `mark_subscribed` as intended: set the flag on the stored record. */
  function SubscribeUser(s: Entries, u: UserId): Entries {
    Put(s, u, GetOrDefault(s, u).(subscribed := Some(true)))
  }

  /** The gate as intended: a missing key reads as its default, so it never
      raises. */
  function GateFixed(rec: Record): (d: Decision)
    ensures !d.MissingKey?
    ensures d == PaymentRequired <==> rec.used.GetOr(0) >= FREE_LIMIT && !rec.subscribed.GetOr(false)
    ensures !Gate(rec).MissingKey? ==> d == Gate(rec)
  {
    if rec.used.GetOr(0) >= FREE_LIMIT && !rec.subscribed.GetOr(false) then PaymentRequired else Proceed
  }

  /** Recording usage adds exactly `amount` to `u`'s count and keeps its
      other keys. */
  lemma RecordUsageAdds(s: Entries, u: UserId, amount: int)
    ensures Lookup(RecordUsage(s, u, amount), u).Some?
    ensures UsedCount(RecordUsage(s, u, amount), u) == UsedCount(s, u) + amount
    ensures GetOrDefault(RecordUsage(s, u, amount), u).subscribed == GetOrDefault(s, u).subscribed
    ensures GetOrDefault(RecordUsage(s, u, amount), u).customerId == GetOrDefault(s, u).customerId
  {
    var rec := GetOrDefault(s, u);
    var rec' := rec.(used := Some(rec.used.GetOr(0) + amount));
    PutLookup(s, u, rec', u);
    assert GetOrDefault(RecordUsage(s, u, amount), u) == rec';
  }

  /** Recording usage leaves every other user's record alone and keeps keys
      unique. */
  lemma RecordUsageFrame(s: Entries, u: UserId, amount: int, v: UserId)
    ensures v != u ==> Lookup(RecordUsage(s, u, amount), v) == Lookup(s, v)
    ensures UniqueKeys(s) ==> UniqueKeys(RecordUsage(s, u, amount))
  {
    var rec := GetOrDefault(s, u);
    var rec' := rec.(used := Some(rec.used.GetOr(0) + amount));
    PutLookup(s, u, rec', v);
    PutShape(s, u, rec');
  }

  /** Subscribing sets `u`'s flag, keeps its other keys, and leaves every
      other user's record alone. */
  lemma SubscribeUserSets(s: Entries, u: UserId, v: UserId)
    ensures Lookup(SubscribeUser(s, u), u) == Some(GetOrDefault(s, u).(subscribed := Some(true)))
    ensures v != u ==> Lookup(SubscribeUser(s, u), v) == Lookup(s, v)
  {
    var rec' := GetOrDefault(s, u).(subscribed := Some(true));
    PutLookup(s, u, rec', u);
    PutLookup(s, u, rec', v);
  }

  /** The entitlement life cycle with the corrected helpers. A user without
      a record passes the gate three times while each upload is recorded;
      the fourth check asks for payment; once the payment processor confirms
      the checkout for the customer provisioned then, the gate passes again. */
  lemma EntitlementLifeCycle(s: Entries, u: UserId, newId: string)
    requires UniqueKeys(s) && DistinctCustomers(s) && Lookup(s, u).None?
    requires forall j :: 0 <= j < |s| ==> s[j].1.customerId != Some(newId)
    ensures var s1 := RecordUsage(s, u, 1);
            var s2 := RecordUsage(s1, u, 1);
            var s3 := RecordUsage(s2, u, 1);
            var s4 := Provisioned(s3, u, newId);
            var s5 := Confirmed(s4, Some(newId));
            && GateFixed(GetOrDefault(s, u)) == Proceed
            && GateFixed(GetOrDefault(s1, u)) == Proceed
            && GateFixed(GetOrDefault(s2, u)) == Proceed
            && UsedCount(s3, u) == 3
            && GateFixed(GetOrDefault(s3, u)) == PaymentRequired
            && GateFixed(GetOrDefault(s5, u)) == Proceed
  {
    var s1 := RecordUsage(s, u, 1);
    var s2 := RecordUsage(s1, u, 1);
    var s3 := RecordUsage(s2, u, 1);
    RecordUsageAdds(s, u, 1);
    RecordUsageAdds(s1, u, 1);
    RecordUsageAdds(s2, u, 1);
    RecordUsageFrame(s, u, 1, u);
    RecordUsageFrame(s1, u, 1, u);
    RecordUsageFrame(s2, u, 1, u);
    // Only `u`'s record changed, and it holds no customer id yet.
    forall v | v != u
      ensures Lookup(s3, v) == Lookup(s, v)
    {
      RecordUsageFrame(s, u, 1, v);
      RecordUsageFrame(s1, u, 1, v);
      RecordUsageFrame(s2, u, 1, v);
    }
    assert DistinctCustomers(s3) && (forall j :: 0 <= j < |s3| ==> s3[j].1.customerId != Some(newId)) by {
      forall j | 0 <= j < |s3|
        ensures s3[j].1.customerId.Some? ==> s3[j].1.customerId != Some(newId)
        ensures s3[j].1.customerId.Some? ==> forall k :: j < k < |s3| ==> s3[j].1.customerId != s3[k].1.customerId
      {
        LookupAt(s3, j);
        if s3[j].0 != u {
          var i := IndexOf(s, s3[j].0).value;
          LookupAt(s, i);
          forall k | j < k < |s3| && s3[j].1.customerId.Some?
            ensures s3[j].1.customerId != s3[k].1.customerId
          {
            LookupAt(s3, k);
            if s3[k].0 != u {
              var i' := IndexOf(s, s3[k].0).value;
              LookupAt(s, i');
            }
          }
        }
      }
    }
    var s4 := Provisioned(s3, u, newId);
    ProvisionSetsOnce(s3, u, newId);
    ProvisionFrame(s3, u, newId, u);
    ProvisionShape(s3, u, newId);
    ProvisionKeepsDistinct(s3, u, newId);
    ConfirmedUser(s4, u, u);
  }
}

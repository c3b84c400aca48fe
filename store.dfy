/** The usage file and the handlers that read and write it. Each handler is
    one atomic step against the file: load, change a local copy, save the
    whole table back. */
module App {
  import opened UsageData
  import opened Entitlement
  import opened Checkout
  import opened Subscription
  import opened Upload

  /** A payment-processor event after its signature was checked. */
  datatype Event = Event(kind: string, customer: Option<string>)

  /** Outcome of a helper that may raise. */
  datatype Outcome = Done | KeyError(key: string)

  class UsageStore {
    /** Whether usage.json exists. */
    var fileExists: bool
    /** The decoded usage.json, in insertion order. */
    var contents: Entries

    /** The table `load_data` returns: empty when the file is missing. */
    function Data(): Entries
      reads this
    {
      if fileExists then contents else []
    }

    /** A decoded JSON object has no repeated key. */
    ghost predicate Valid()
      reads this
    {
      UniqueKeys(Data())
    }

    constructor (found: bool, initial: Entries)
      requires UniqueKeys(initial)
      ensures Valid()
      ensures fileExists == found && contents == initial
    {
      fileExists := found;
      contents := initial;
    }

    /** `load_data`. */
    method LoadData() returns (data: Entries)
      ensures data == Data()
      ensures !fileExists ==> data == []
    {
      if fileExists {
        data := contents;
      } else {
        data := [];
      }
    }

    /** `save_data`: the whole table is rewritten. */
    method SaveData(data: Entries)
      modifies this
      ensures fileExists && contents == data
    {
      fileExists := true;
      contents := data;
    }

    /** `get_user_record`: the stored record, or the default for an unknown
        user. The default is inserted only into the loaded copy, which is
        dropped, so the file is never written. */
    method GetUserRecord(u: UserId) returns (rec: Record)
      ensures Lookup(Data(), u).Some? ==> (u, rec) in Data()
      ensures Lookup(Data(), u).None? ==> rec == DefaultRecord
      ensures rec == GetOrDefault(Data(), u)
    {
      var data := LoadData();
      var i := IndexOf(data, u);
      if i.Some? {
        rec := data[i.value].1;
      } else {
        data := data + [(u, DefaultRecord)];
        rec := DefaultRecord;
      }
    }

    /** `increment_usage` as written: the bumped record lives in a copy that
        is dropped, and a fresh reload is saved, so the table is unchanged
        (the file only comes into existence). A record without `used` makes
        `rec["used"] += amount` raise KeyError before anything is saved. */
    method IncrementUsage(u: UserId, amount: int) returns (outcome: Outcome)
      requires Valid()
      modifies this
      ensures Valid()
      ensures outcome == if GetOrDefault(old(Data()), u).used.None? then KeyError("used") else Done
      ensures outcome.KeyError? ==> unchanged(this)
      ensures outcome.Done? ==> fileExists && contents == old(Data())
    {
      var rec := GetUserRecord(u);
      if rec.used.None? {
        return KeyError("used");
      }
      rec := rec.(used := Some(rec.used.value + amount));
      var reloaded := LoadData();
      SaveData(reloaded);
      return Done;
    }

    /** `mark_subscribed` as written: the flag is set on a dropped copy and a
        fresh reload is saved, so the table is unchanged. */
    method MarkSubscribed(u: UserId)
      requires Valid()
      modifies this
      ensures Valid()
      ensures fileExists && contents == old(Data())
    {
      var rec := GetUserRecord(u);
      rec := rec.(subscribed := Some(true));
      var reloaded := LoadData();
      SaveData(reloaded);
    }

    /** The customer-id part of `_create_stripe_session`. `newId` is the id the
        payment processor would give a newly created customer; the result is
        the id the checkout session is created for. The file is written only
        when a new id is stored. */
    method ProvisionCustomer(u: UserId, newId: string) returns (customer: string)
      requires Valid()
      modifies this
      ensures Valid()
      ensures customer == ProvisionedId(old(Data()), u, newId)
      ensures Data() == Provisioned(old(Data()), u, newId)
      ensures NeedsCustomer(old(Data()), u) ==> fileExists && contents == Provisioned(old(Data()), u, newId)
      ensures !NeedsCustomer(old(Data()), u) ==> unchanged(this)
    {
      var data := LoadData();
      var rec := Lookup(data, u).GetOr(EmptyRecord);
      if rec.customerId.None? {
        rec := rec.(customerId := Some(newId));
        data := Put(data, u, rec);
        ProvisionShape(old(Data()), u, newId);
        SaveData(data);
      }
      customer := rec.customerId.value;
    }

    /** The webhook handler. An event whose signature did not verify is
        refused before the file is read. A completed checkout marks the first
        record, in insertion order, holding the event's customer id; every
        other event type is acknowledged without reading or writing. */
    method StripeWebhook(signatureValid: bool, event: Event) returns (status: nat)
      requires Valid()
      modifies this
      ensures Valid()
      ensures status == if signatureValid then 200 else 400
      ensures !signatureValid || event.kind != CheckoutCompleted ==> unchanged(this)
      ensures signatureValid && event.kind == CheckoutCompleted ==>
                fileExists && contents == Confirmed(old(Data()), event.customer)
    {
      if !signatureValid {
        return 400;
      }
      if event.kind == CheckoutCompleted {
        var data := LoadData();
        ghost var loaded := data;
        ConfirmedKeys(loaded, event.customer);
        var i := 0;
        while i < |data|
          invariant 0 <= i <= |data|
          invariant data == loaded
          invariant forall j :: 0 <= j < i ==> !Matches(data[j], event.customer)
        {
          if data[i].1.customerId == event.customer {
            assert FirstMatch(loaded, event.customer) == Some(i);
            data := data[i := (data[i].0, data[i].1.(subscribed := Some(true)))];
            break;
          }
          i := i + 1;
        }
        SaveData(data);
      }
      return 200;
    }

    /** The upload handler. `walk` is what `os.walk` finds in the extracted
        archive, `refactor` stands for the completion-service call,
        `newId` for the customer the payment processor would create and
        `checkoutUrl` for the URL of the checkout session it would return. */
    method Upload(userId: Option<string>, fileName: Option<string>, walk: seq<seq<ExtractedFile>>,
                  refactor: string -> Option<string>, newId: string, checkoutUrl: string)
      returns (resp: Response)
      requires Valid()
      modifies this
      ensures Valid()
      ensures resp == UploadResponse(old(Data()), userId, fileName, walk, refactor, checkoutUrl)
      ensures resp.QuotaExceeded? && HasUserId(userId) ==> Data() == Provisioned(old(Data()), userId.value, newId)
      ensures resp.QuotaExceeded? && HasUserId(userId) && NeedsCustomer(old(Data()), userId.value) ==> fileExists
      ensures resp.QuotaExceeded? && HasUserId(userId) && !NeedsCustomer(old(Data()), userId.value) ==> unchanged(this)
      ensures resp.Archive? ==> fileExists && contents == old(Data())
      ensures !resp.QuotaExceeded? && !resp.Archive? ==> unchanged(this)
    {
      if userId.None? || userId.value == "" {
        return MissingUserId;
      }
      var u := userId.value;
      var rec := GetUserRecord(u);
      var decision := Gate(rec);
      if decision.MissingKey? {
        return UncaughtKeyError(decision.key);
      }
      if decision == PaymentRequired {
        var customer := ProvisionCustomer(u, newId);
        return QuotaExceeded(checkoutUrl);
      }
      if fileName.None? || !IsZipName(fileName.value) {
        return InvalidArchive;
      }
      var count := CountRefactored(walk, refactor);
      if count == 0 {
        return NoRefactorOutput;
      }
      var outcome := IncrementUsage(u, count);
      // The gate already read `used` from the same table, so no KeyError here.
      assert outcome == Done;
      return Archive(count);
    }
  }
}

/** The persisted usage table (usage.json): a JSON object decoded into an
    insertion-ordered list of (user id, record) pairs. Python dicts iterate in
    insertion order, and the webhook's scan depends on that order, so the
    table is a sequence rather than a map. */
module UsageData {

  datatype Option<T> = None | Some(value: T) {
    /** The value, or `default` when absent (Python's `d.get(k, default)`). */
    function GetOr(default: T): T {
      match this
      case Some(v) => v
      case None => default
    }
  }

  type UserId = string

  /** One user's record. Every key may be absent: a record created by the
      checkout helper holds only `stripe_customer_id`. */
  datatype Record = Record(used: Option<int>, subscribed: Option<bool>, customerId: Option<string>)

  /** What `get_user_record` hands out for an unknown user. */
  const DefaultRecord: Record := Record(Some(0), Some(false), None)

  /** What `setdefault(user_id, {})` inserts in the checkout helper. */
  const EmptyRecord: Record := Record(None, None, None)

  type Entry = (UserId, Record)
  type Entries = seq<Entry>

  /** A JSON object never repeats a key. */
  ghost predicate UniqueKeys(s: Entries) {
    forall i, j :: 0 <= i < j < |s| ==> s[i].0 != s[j].0
  }

  /** Position of the first entry keyed by `u`. */
  function IndexOf(s: Entries, u: UserId): (r: Option<nat>)
    ensures r.Some? ==> r.value < |s| && s[r.value].0 == u
    ensures r.Some? ==> forall j :: 0 <= j < r.value ==> s[j].0 != u
    ensures r.None? ==> forall j :: 0 <= j < |s| ==> s[j].0 != u
  {
    if s == [] then None
    else if s[0].0 == u then Some(0)
    else match IndexOf(s[1..], u)
      case None => None
      case Some(k) => Some(k + 1)
  }

  /** Dictionary lookup `data.get(u)`. */
  function Lookup(s: Entries, u: UserId): (r: Option<Record>)
    ensures r.None? <==> forall j :: 0 <= j < |s| ==> s[j].0 != u
    ensures r.Some? ==> (u, r.value) in s
  {
    match IndexOf(s, u)
    case Some(i) => Some(s[i].1)
    case None => None
  }

  /** The record `get_user_record` returns: the stored one, else the default. */
  function GetOrDefault(s: Entries, u: UserId): (rec: Record)
    ensures Lookup(s, u).None? ==> rec == DefaultRecord
    ensures Lookup(s, u).Some? ==> (u, rec) in s
  {
    Lookup(s, u).GetOr(DefaultRecord)
  }

  /** Dictionary assignment `data[u] = r`: an existing key keeps its position,
      a new key goes last. */
  function Put(s: Entries, u: UserId, r: Record): Entries {
    match IndexOf(s, u)
    case Some(i) => s[i := (u, r)]
    case None => s + [(u, r)]
  }

  lemma IndexOfIs(s: Entries, u: UserId, k: nat)
    requires k < |s| && s[k].0 == u
    requires forall j :: 0 <= j < k ==> s[j].0 != u
    ensures IndexOf(s, u) == Some(k)
  {
  }

  /** In a table with unique keys, each entry is what a lookup of its key finds. */
  lemma LookupAt(s: Entries, i: nat)
    requires UniqueKeys(s) && i < |s|
    ensures Lookup(s, s[i].0) == Some(s[i].1)
  {
    IndexOfIs(s, s[i].0, i);
  }

  /** After `data[u] = r`, a lookup of `u` finds `r` and every other key finds
      what it found before. */
  lemma PutLookup(s: Entries, u: UserId, r: Record, v: UserId)
    ensures Lookup(Put(s, u, r), v) == if v == u then Some(r) else Lookup(s, v)
  {
    var t := Put(s, u, r);
    if v == u {
      match IndexOf(s, u)
      case Some(i) => IndexOfIs(t, u, i);
      case None => IndexOfIs(t, u, |s|);
    } else {
      match IndexOf(s, v)
      case Some(k) => IndexOfIs(t, v, k);
      case None =>
        assert forall j :: 0 <= j < |t| ==> t[j].0 != v;
    }
  }

  /** Assignment keeps every existing key in place, appends only a new key,
      and keeps keys unique. */
  lemma PutShape(s: Entries, u: UserId, r: Record)
    ensures |Put(s, u, r)| == if Lookup(s, u).Some? then |s| else |s| + 1
    ensures forall i :: 0 <= i < |s| ==> Put(s, u, r)[i].0 == s[i].0
    ensures Lookup(s, u).None? ==> Put(s, u, r)[|s|] == (u, r)
    ensures UniqueKeys(s) ==> UniqueKeys(Put(s, u, r))
  {
  }
}

# Usage and entitlement table of the Iterra upload service

Iterra is a small Flask service. A user uploads a zip of React sources. Each
`.js`/`.jsx` file is sent to a completion service for refactoring, and the
rewritten files come back as a zip. Each user gets `FREE_LIMIT` (3) free
uploads, tracked in `usage.json`. After that, the user must buy a
subscription through a hosted payment checkout. The payment processor's
webhook marks the user subscribed.

This project models the usage table and the logic around it:

- **The table.** `usage.json` is modelled as an insertion-ordered sequence
  of `(user id, record)` pairs. Every key of a record is optional:
  `used`, `subscribed` and `stripe_customer_id`. A missing file loads as the
  empty table.
- **The record helpers.** `get_user_record`, `increment_usage` and
  `mark_subscribed` are modelled as the code is written. The two update
  helpers save a fresh reload of the file, so the table does not change.
- **The customer-id part of the checkout helper.** A customer id is set at
  most once, and the file is written only when a new id is created.
- **The webhook.** A first-match scan in insertion order marks one record
  subscribed.
- **The upload handler.** This covers the User-ID check, the free-limit gate,
  the archive name check, the nested count loop over the extracted files and
  the final usage call.

The file is the `UsageStore` class in `store.dfy`. Each handler is a method
that loads the table, changes a local copy and saves the whole table back.
Each method is proved against a pure function of the table it loaded. Those
functions are `Provisioned`, `Confirmed`, `Refactored` and `UploadResponse`.
The properties are lemmas about those functions, in the modules `UsageData`,
`Entitlement`, `Checkout`, `Subscription`, `Upload` and `Corrections`.

The model follows the code where the code and its own comments disagree:

- The comment `# record usage` (app.py:205) precedes the call
  `increment_usage(user_id, count)`, but `increment_usage` saves a fresh
  reload of the file (app.py:64-67), so nothing is recorded.
- `get_user_record` builds the record of a new user as `used 0, subscribed
  false`, and its comment says the customer id goes into that record
  (app.py:58-61). That default is never saved, though. The checkout helper
  stores a record holding only the customer id (app.py:81-86).

The intended behaviour is modelled separately, under "Findings".

## Model

| member | source | states |
|---|---|---|
| UsageData.IndexOf | app.py:56-62 | the position found is the first entry keyed by the user; none means no entry has that key |
| UsageData.Lookup | app.py:56-62 | a lookup finds nothing exactly when no entry has the key, and what it finds is a stored pair |
| UsageData.GetOrDefault | app.py:56-62 | a user without an entry reads as the default record `used 0, subscribed false`, and a known user reads as the record stored for them |
| UsageData.LookupAt | app.py:56-62 | in a table with unique keys, every entry is what a lookup of its key returns |
| UsageData.Put | app.py:81-85 | defines `data[u] = r` on the insertion-ordered table; `PutLookup` and `PutShape` state its properties |
| UsageData.PutLookup | app.py:81-85 | after `data[u] = r`, a lookup of `u` gives `r` and every other key gives what it gave before |
| UsageData.PutShape | app.py:81-85 | assignment keeps existing keys in place, appends only a new key at the end, and keeps keys unique |
| Entitlement.Gate | app.py:158-165 | payment is required exactly when `used` is present and at least 3 and `subscribed` is false; a KeyError comes from a missing `used`, or from a missing `subscribed` when the count is at the limit |
| Entitlement.UnknownUserProceeds | app.py:56-62 | the default record of an unknown user passes the gate |
| Entitlement.Lower | app.py:169 | defines `str.lower()` as ASCII folding, one character at a time; `LowerZipSuffix` states what it means for the archive check |
| Entitlement.EndsWith | app.py:190 | defines `str.endswith`: the last characters equal the suffix; `LowerZipSuffix` and `IsScriptName` state it character by character |
| Entitlement.LowerZipSuffix | app.py:169 | after ASCII lower-casing, a name ends in `.zip` exactly when it ended in a dot and z, i, p in either case |
| Entitlement.IsZipName | app.py:169 | a file is accepted exactly when its name ends in a dot followed by z, i, p in either case |
| Entitlement.IsScriptName | app.py:190 | a file is a script exactly when its name ends in `.js` or `.jsx`, lower case only |
| Entitlement.ZipNameIgnoresCase | app.py:169 | the archive check accepts `SRC.ZIP` and `src.Zip` and refuses `src.zip.txt` |
| Entitlement.ScriptNameIsCaseSensitive | app.py:190 | the script check accepts `App.jsx` and `index.js` and refuses `App.JS`, `App.JSX` and `style.json` |
| Checkout.ProvisionSetsOnce | app.py:80-89 | after provisioning, the user holds the id the session is created for; an existing id is kept, and a new one is the id passed in |
| Checkout.Provisioned | app.py:80-86 | defines the table after the customer-id step; `ProvisionSetsOnce`, `ProvisionNewUser`, `ProvisionFrame`, `ProvisionIdempotent` and `ProvisionShape` state its properties |
| Checkout.ProvisionedId | app.py:80-89 | defines the customer the session is created for; `ProvisionSetsOnce` states it is the existing id, or the new id when there was none |
| Checkout.ProvisionNewUser | app.py:80-86 | a user the table did not know gets a record holding only the customer id, appended last |
| Checkout.ProvisionFrame | app.py:80-86 | provisioning leaves every other user alone and keeps this user's `used` and `subscribed` keys |
| Checkout.ProvisionIdempotent | app.py:80-86 | provisioning twice gives the table and id of provisioning once, whatever id the second call is offered |
| Checkout.ProvisionShape | app.py:80-86 | provisioning keeps keys unique and keeps existing users in their positions |
| Subscription.FirstMatch | app.py:143-146 | the scan stops at the first record whose customer id equals the event's customer; none means no record matches |
| Subscription.Confirmed | app.py:139-147 | defines the table the webhook saves; `ConfirmedNoMatch`, `ConfirmedFirstMatch`, `ConfirmedKeys` and `ConfirmedUser` state its properties |
| Subscription.ConfirmedNoMatch | app.py:142-147 | with no matching record the saved table equals the loaded table |
| Subscription.ConfirmedFirstMatch | app.py:143-147 | only the first matching record gets `subscribed` set to true; its other keys and all other records are kept |
| Subscription.ConfirmedKeys | app.py:142-147 | the webhook never adds, removes or reorders users |
| Subscription.ProvisionKeepsDistinct | app.py:83-86 | provisioning with an id no record holds keeps customer ids distinct |
| Subscription.ConfirmedUser | app.py:139-147 | with distinct customer ids, confirming user `u`'s id marks exactly `u` subscribed and leaves every other user's record as it was |
| Upload.RefactoredAppend | app.py:187-200 | the count over two runs of files is the sum of their counts |
| Upload.Walked | app.py:187-188 | defines the files `os.walk` visits, one directory after another; `WalkedSnoc` and `CountRefactored` use it |
| Upload.Refactored | app.py:187-200 | defines how many files are counted; `RefactoredAppend` and `RefactoredZero` state its properties and `CountRefactored` is proved equal to it |
| Upload.RefactoredZero | app.py:187-203 | the count is at most the number of files, and it is zero exactly when no file is a `.js`/`.jsx` file with a non-empty result |
| Upload.CountRefactored | app.py:187-200 | the nested loop returns the number of `.js`/`.jsx` files whose result is neither None nor empty |
| Upload.UploadResponse | app.py:152-206 | defines the handler's answer in the order the code decides it; `UploadNeedsUserId`, `UploadQuota`, `UploadUnknownUser` and `UploadCounts` state its properties |
| Upload.UploadNeedsUserId | app.py:154-156 | a missing or empty User-ID header gets 400 whatever the table holds, and only then |
| Upload.UploadQuota | app.py:158-165 | the handler answers 402 with the checkout URL exactly when `used >= 3` and `subscribed` is false, before the file is looked at |
| Upload.UploadUnknownUser | app.py:56-62 | a user without a record is never asked to pay and never hits a KeyError |
| Upload.UploadCounts | app.py:187-206 | past the gate and the archive check, the answer is 500 exactly when no file was rewritten, and otherwise the archive with the count |
| App.UsageStore.LoadData | app.py:46-50 | loading returns the stored table, or the empty table when the file is missing |
| App.UsageStore.SaveData | app.py:52-54 | saving creates the file and replaces the whole table |
| App.UsageStore.GetUserRecord | app.py:56-62 | returns the stored record if the user is present, else the default `used 0, subscribed false`, and never writes |
| App.UsageStore.IncrementUsage | app.py:64-67 | KeyError exactly when the user's record lacks `used`; otherwise the saved table equals the loaded one, so the increment is lost |
| App.UsageStore.MarkSubscribed | app.py:69-72 | the saved table equals the loaded one, so the flag is lost |
| App.UsageStore.ProvisionCustomer | app.py:80-89 | the table becomes `Provisioned`; the file is written only when a new id is created, and the session's id is the existing id or the new one |
| App.UsageStore.StripeWebhook | app.py:127-149 | a bad signature gets 400 with no read or write; a completed checkout saves `Confirmed` of the loaded table; other event types get 200 with no read or write |
| App.UsageStore.Upload | app.py:152-215 | the answer is `UploadResponse` of the loaded table; only a 402 (through provisioning) or a successful upload writes the file, and the latter writes back the loaded table |
| Corrections.NoUsageStoredPreserved | app.py:80-86 | neither provisioning nor the webhook ever stores a `used` key |
| Corrections.QuotaNeverEnforced | app.py:158-165 | if no record has `used`, no upload is ever answered with 402, and a known user always gets a KeyError |
| Corrections.CheckoutThenUploadFails | app.py:158-160 | a new user who goes through checkout first then gets a 500 KeyError on upload |
| Corrections.UploadOneScript | app.py:187-211 | against an empty table, one rewritten `.jsx` file in `src.zip` gives the archive with count 1 |
| Corrections.GateFixed | app.py:160 | the corrected gate never raises, asks for payment exactly when the defaulted count is at least 3 and the defaulted flag is false, and agrees with the gate wherever the gate does not raise |
| Corrections.RecordUsageAdds | app.py:64-67 | the corrected increment adds exactly the amount to the user's count and keeps the user's other keys |
| Corrections.RecordUsageFrame | app.py:64-67 | the corrected increment leaves every other user's record alone and keeps keys unique |
| Corrections.SubscribeUserSets | app.py:69-72 | the corrected subscribe sets the user's flag, keeps the other keys and leaves other users alone |
| Corrections.EntitlementLifeCycle | app.py:154-206 | with the corrected helpers, a new user passes the gate three times, is asked to pay on the fourth try, and passes again after the webhook confirms the customer provisioned then |

## Left out

- Flask routing, templates, and the `/`, `/success`, `/cancel`, `/create-checkout-session` and `/checkout` routes (app.py:98-124, 218-225). Those two checkout routes only check `user_id` and call the checkout helper.
- Creating the checkout session (app.py:88-94) is a call to the payment processor. Its URL is an opaque parameter of `Upload`. A failing `Customer.create` or `Session.create` is not modelled.
- Webhook signature verification (app.py:131-136) is a boolean input. A payload without `data.object.customer` is not modelled.
- The refactoring call (app.py:229-248) goes over the network. It is a function parameter `refactor`, applied to a file's text.
- Zip extraction, saving the upload, `secure_filename`, `uuid4`, reading and writing files, `make_archive`, `send_file` and `rmtree` are file-system I/O. The extracted tree is an input: one list of files per directory, in `os.walk` order.
- Two exceptions inside the upload's `try` (app.py:181-203) are not modelled. Each ends the request with a 500 and no usage call. One comes from an upload named `.zip` that is not a zip archive (`zipfile.BadZipFile`, app.py:183-184). The other comes from a `.js`/`.jsx` file that is not UTF-8 (`UnicodeDecodeError`, app.py:192). Extracted files are modelled as decoded text, so `UsageStore.Upload` never gives either answer.
- JSON encoding of `usage.json` is left out, and so is the failure of `json.load` on a corrupt file. Values of the wrong JSON type are left out too. `used` is an integer, `subscribed` a boolean, the customer id a string.
- The configuration check (app.py:20-33) is environment-dependent start-up code.
- Requests that interleave are not modelled, so neither are the lost updates between them. Each handler is one atomic step against the file.
- Entitlement.IsZipName: `str.lower()` folds Unicode case, but the model folds only ASCII letters.

## Findings

| source | as written | input that shows it | evidently intended | confidence | as-written member | corrected member |
|---|---|---|---|---|---|---|
| app.py:64-67 | `rec["used"] += amount` bumps a record inside a throw-away load; then `save_data(load_data())` saves a fresh reload | a new user uploads four archives, each with one rewritten `.jsx`, against a missing `usage.json`; all four succeed, and the free limit is never reached | save the table that holds the bumped record | high (not executed) | `App.UsageStore.IncrementUsage`, shown by `Corrections.LostIncrementWitness` and `Corrections.QuotaNeverEnforced` | `Corrections.RecordUsage`, proved by `Corrections.RecordUsageAdds` and used by `Corrections.EntitlementLifeCycle` |
| app.py:69-72 | `rec["subscribed"] = True` is set on a throw-away load, and a fresh reload is saved | a user stored with `used: 3, subscribed: false` is still answered 402 after a direct call of `mark_subscribed`. Nothing in app.py calls the helper, because the webhook sets the flag itself (app.py:143-146). So as the code stands, no request loses a flag | save the table with the flag set | high (not executed) | `App.UsageStore.MarkSubscribed`, shown by `Corrections.LostSubscriptionWitness` | `Corrections.SubscribeUser`, proved by `Corrections.SubscribeUserSets` |
| app.py:158-160 | `rec["used"]` is indexed directly, but the checkout helper stores records holding only `stripe_customer_id` (app.py:81-86) | a new user opens `/checkout`, then uploads; the gate raises KeyError and the answer is 500 | read missing keys as their defaults, `used` 0 and `subscribed` false | high (not executed) | `Entitlement.Gate`, shown by `Corrections.CheckoutThenUploadFails` | `Corrections.GateFixed`, used by `Corrections.EntitlementLifeCycle` |

/** The upload handler's decisions: user id check, free-limit gate, archive
    name check, and the count of files the refactoring service rewrote. */
module Upload {
  import opened UsageData
  import opened Entitlement

  /** A file found in the extracted archive: its base name and its text. */
  datatype ExtractedFile = ExtractedFile(name: string, content: string)

  /** `if not new: continue`: a refactoring result counts only when it is
      neither None nor the empty string. */
  predicate Produced(out: Option<string>) {
    out.Some? && out.value != ""
  }

  /** A file is counted when it is a .js/.jsx file the service rewrote. */
  predicate Counted(f: ExtractedFile, refactor: string -> Option<string>) {
    IsScriptName(f.name) && Produced(refactor(f.content))
  }

  /** The files `os.walk` visits, one directory after another. */
  function Walked(walk: seq<seq<ExtractedFile>>): seq<ExtractedFile> {
    if walk == [] then [] else Walked(walk[..|walk| - 1]) + walk[|walk| - 1]
  }

  /** How many of `files` are counted. */
  function Refactored(files: seq<ExtractedFile>, refactor: string -> Option<string>): nat {
    if files == [] then 0
    else Refactored(files[..|files| - 1], refactor) + (if Counted(files[|files| - 1], refactor) then 1 else 0)
  }

  /** Counting distributes over concatenation. */
  lemma {:induction false} RefactoredAppend(a: seq<ExtractedFile>, b: seq<ExtractedFile>, refactor: string -> Option<string>)
    ensures Refactored(a + b, refactor) == Refactored(a, refactor) + Refactored(b, refactor)
  {
    if b == [] {
      assert a + b == a;
    } else {
      var b' := b[..|b| - 1];
      assert (a + b)[..|a + b| - 1] == a + b';
      assert (a + b)[|a + b| - 1] == b[|b| - 1];
      RefactoredAppend(a, b', refactor);
    }
  }

  /** The count is zero exactly when no file is a rewritten .js/.jsx file,
      and it never exceeds the number of files. */
  lemma {:induction false} RefactoredZero(files: seq<ExtractedFile>, refactor: string -> Option<string>)
    ensures Refactored(files, refactor) <= |files|
    ensures Refactored(files, refactor) == 0 <==> forall i :: 0 <= i < |files| ==> !Counted(files[i], refactor)
  {
    if files != [] {
      var init := files[..|files| - 1];
      RefactoredZero(init, refactor);
      assert forall i :: 0 <= i < |init| ==> init[i] == files[i];
    }
  }

  /** One more file adds one to the count when it is counted. */
  lemma RefactoredSnoc(files: seq<ExtractedFile>, f: ExtractedFile, refactor: string -> Option<string>)
    ensures Refactored(files + [f], refactor) == Refactored(files, refactor) + (if Counted(f, refactor) then 1 else 0)
  {
    assert (files + [f])[..|files|] == files;
  }

  /** One more directory adds its files after those already visited. */
  lemma WalkedSnoc(walk: seq<seq<ExtractedFile>>, d: nat)
    requires d < |walk|
    ensures Walked(walk[..d + 1]) == Walked(walk[..d]) + walk[d]
  {
    assert walk[..d + 1][..d] == walk[..d];
  }

  /** The nested loop over `os.walk`: count the .js/.jsx files whose
      refactoring result is neither None nor empty. */
  method CountRefactored(walk: seq<seq<ExtractedFile>>, refactor: string -> Option<string>) returns (count: nat)
    ensures count == Refactored(Walked(walk), refactor)
  {
    count := 0;
    for d := 0 to |walk|
      invariant count == Refactored(Walked(walk[..d]), refactor)
    {
      ghost var before := count;
      var files := walk[d];
      for i := 0 to |files|
        invariant count == before + Refactored(files[..i], refactor)
      {
        var f := files[i];
        assert files[..i + 1] == files[..i] + [f];
        RefactoredSnoc(files[..i], f, refactor);
        if IsScriptName(f.name) {
          var out := refactor(f.content);
          if out.None? || out.value == "" {
            continue;
          }
          count := count + 1;
        }
      }
      assert files[..|files|] == files;
      WalkedSnoc(walk, d);
      RefactoredAppend(Walked(walk[..d]), files, refactor);
    }
    assert walk[..|walk|] == walk;
  }

  /** What the handler answers. */
  datatype Response =
    | MissingUserId                       // "Missing User-ID header"
    | QuotaExceeded(checkoutUrl: string)  // "Free limit reached", with the checkout URL
    | InvalidArchive                      // "Upload a valid .zip"
    | NoRefactorOutput                    // "No refactor output"
    | UncaughtKeyError(key: string)       // an exception Flask turns into a server error
    | Archive(refactored: nat)            // the zip of the rewritten files
  {
    function Status(): nat {
      match this
      case MissingUserId => 400
      case QuotaExceeded(_) => 402
      case InvalidArchive => 400
      case NoRefactorOutput => 500
      case UncaughtKeyError(_) => 500
      case Archive(_) => 200
    }
  }

  /** `not user_id`: the header is absent or empty. */
  predicate HasUserId(userId: Option<string>) {
    userId.Some? && userId.value != ""
  }

  /** The handler's answer for a request against the table `s`. */
  function UploadResponse(s: Entries, userId: Option<string>, fileName: Option<string>,
                          walk: seq<seq<ExtractedFile>>, refactor: string -> Option<string>,
                          checkoutUrl: string): Response
  {
    if !HasUserId(userId) then MissingUserId
    else match Gate(GetOrDefault(s, userId.value))
      case MissingKey(k) => UncaughtKeyError(k)
      case PaymentRequired => QuotaExceeded(checkoutUrl)
      case Proceed =>
        if fileName.None? || !IsZipName(fileName.value) then InvalidArchive
        else
          var count := Refactored(Walked(walk), refactor);
          if count == 0 then NoRefactorOutput else Archive(count)
  }

  /** A missing or empty User-ID header is answered with 400 whatever the
      table holds, and nothing else is answered that way with that message. */
  lemma UploadNeedsUserId(s: Entries, userId: Option<string>, fileName: Option<string>,
                          walk: seq<seq<ExtractedFile>>, refactor: string -> Option<string>, url: string)
    ensures UploadResponse(s, userId, fileName, walk, refactor, url) == MissingUserId <==> !HasUserId(userId)
    ensures !HasUserId(userId) ==> UploadResponse(s, userId, fileName, walk, refactor, url).Status() == 400
  {
  }

  /** The handler asks for payment (402 with the checkout URL) exactly when the
      user's `used` is at least the free limit and `subscribed` is false,
      before looking at the uploaded file. */
  lemma UploadQuota(s: Entries, u: UserId, fileName: Option<string>,
                    walk: seq<seq<ExtractedFile>>, refactor: string -> Option<string>, url: string)
    requires u != ""
    ensures var r := UploadResponse(s, Some(u), fileName, walk, refactor, url);
            var rec := GetOrDefault(s, u);
            (r.QuotaExceeded? <==> rec.used.Some? && rec.used.value >= FREE_LIMIT && rec.subscribed == Some(false))
            && (r.QuotaExceeded? ==> r == QuotaExceeded(url) && r.Status() == 402)
  {
  }

  /** A user with no record is never asked to pay and never hits a KeyError. */
  lemma UploadUnknownUser(s: Entries, u: UserId, fileName: Option<string>,
                          walk: seq<seq<ExtractedFile>>, refactor: string -> Option<string>, url: string)
    requires u != "" && Lookup(s, u).None?
    ensures var r := UploadResponse(s, Some(u), fileName, walk, refactor, url);
            r.InvalidArchive? || r.NoRefactorOutput? || r.Archive?
  {
  }

  /** Once past the gate and the archive check, the handler answers 500 exactly
      when no file was rewritten, and otherwise reports the count. */
  lemma UploadCounts(s: Entries, u: UserId, name: string,
                     walk: seq<seq<ExtractedFile>>, refactor: string -> Option<string>, url: string)
    requires u != "" && Gate(GetOrDefault(s, u)) == Proceed && IsZipName(name)
    ensures var r := UploadResponse(s, Some(u), Some(name), walk, refactor, url);
            var files := Walked(walk);
            (r == NoRefactorOutput <==> forall i :: 0 <= i < |files| ==> !Counted(files[i], refactor))
            && (r != NoRefactorOutput ==> r == Archive(Refactored(files, refactor)) && 1 <= r.refactored <= |files|)
  {
    RefactoredZero(Walked(walk), refactor);
  }
}

/** The pure decisions of the upload handler: the free-limit gate and the
    file-name tests. */
module Entitlement {
  import opened UsageData

  /** Free uploads per user. */
  const FREE_LIMIT: int := 3

  /** Outcome of evaluating `rec["used"] >= FREE_LIMIT and not rec["subscribed"]`:
      go on, ask for payment (HTTP 402), or a KeyError for a missing key. */
  datatype Decision = Proceed | PaymentRequired | MissingKey(key: string)

  /** The free-limit test, evaluated as Python evaluates `and`: `used` is read
      first, and `subscribed` is read only when the count is at the limit. */
  function Gate(rec: Record): (d: Decision)
    ensures d == PaymentRequired <==>
              rec.used.Some? && rec.used.value >= FREE_LIMIT && rec.subscribed == Some(false)
    ensures d == Proceed <==>
              rec.used.Some? && (rec.used.value < FREE_LIMIT || rec.subscribed == Some(true))
    ensures d == MissingKey("used") <==> rec.used.None?
    ensures d == MissingKey("subscribed") <==>
              rec.used.Some? && rec.used.value >= FREE_LIMIT && rec.subscribed.None?
  {
    match rec.used
    case None => MissingKey("used")
    case Some(n) =>
      if n < FREE_LIMIT then Proceed
      else match rec.subscribed
        case None => MissingKey("subscribed")
        case Some(paid) => if paid then Proceed else PaymentRequired
  }

  /** ASCII case folding of one character. */
  function LowerChar(c: char): char {
    if 'A' <= c <= 'Z' then (c as int + 32) as char else c
  }

  /** `s.lower()`, character by character. */
  function Lower(s: string): string {
    seq(|s|, i requires 0 <= i < |s| => LowerChar(s[i]))
  }

  /** `s.endswith(suffix)`. */
  predicate EndsWith(s: string, suffix: string) {
    |suffix| <= |s| && s[|s| - |suffix|..] == suffix
  }

  /** Folding maps exactly an upper-case letter and its lower-case form onto
      the lower-case form. */
  lemma FoldsOnto(c: char, lo: char, up: char)
    requires 'A' <= up <= 'Z' && lo as int == up as int + 32
    ensures LowerChar(c) == lo <==> c == lo || c == up
  {
  }

  /** The folded name ends in ".zip" exactly when the name ends in a dot
      followed by z, i, p in either case. */
  lemma LowerZipSuffix(name: string)
    ensures EndsWith(Lower(name), ".zip") <==>
              |name| >= 4 && name[|name| - 4] == '.'
              && (name[|name| - 3] == 'z' || name[|name| - 3] == 'Z')
              && (name[|name| - 2] == 'i' || name[|name| - 2] == 'I')
              && (name[|name| - 1] == 'p' || name[|name| - 1] == 'P')
  {
    var n := |name|;
    if n >= 4 {
      var a, b, c, d := name[n - 4], name[n - 3], name[n - 2], name[n - 1];
      assert Lower(name)[n - 4..] == [LowerChar(a), LowerChar(b), LowerChar(c), LowerChar(d)];
      FoldsOnto(b, 'z', 'Z');
      FoldsOnto(c, 'i', 'I');
      FoldsOnto(d, 'p', 'P');
    }
  }

  /** The archive check `f.filename.lower().endswith(".zip")`: the name ends in
      a dot followed by z, i, p in either case. */
  predicate IsZipName(name: string)
    ensures IsZipName(name) <==>
              |name| >= 4 && name[|name| - 4] == '.'
              && (name[|name| - 3] == 'z' || name[|name| - 3] == 'Z')
              && (name[|name| - 2] == 'i' || name[|name| - 2] == 'I')
              && (name[|name| - 1] == 'p' || name[|name| - 1] == 'P')
  {
    LowerZipSuffix(name);
    EndsWith(Lower(name), ".zip")
  }

  /** The script check `fn.endswith((".js", ".jsx"))`, case-sensitive. */
  predicate IsScriptName(name: string)
    ensures IsScriptName(name) <==>
              (|name| >= 3 && name[|name| - 3] == '.' && name[|name| - 2] == 'j' && name[|name| - 1] == 's')
              || (|name| >= 4 && name[|name| - 4] == '.' && name[|name| - 3] == 'j'
                  && name[|name| - 2] == 's' && name[|name| - 1] == 'x')
  {
    var n := |name|;
    assert EndsWith(name, ".js") <==>
           n >= 3 && name[n - 3] == '.' && name[n - 2] == 'j' && name[n - 1] == 's' by {
      if n >= 3 && name[n - 3] == '.' && name[n - 2] == 'j' && name[n - 1] == 's' {
        assert name[n - 3..] == ".js";
      }
    }
    assert EndsWith(name, ".jsx") <==>
           n >= 4 && name[n - 4] == '.' && name[n - 3] == 'j' && name[n - 2] == 's' && name[n - 1] == 'x' by {
      if n >= 4 && name[n - 4] == '.' && name[n - 3] == 'j' && name[n - 2] == 's' && name[n - 1] == 'x' {
        assert name[n - 4..] == ".jsx";
      }
    }
    EndsWith(name, ".js") || EndsWith(name, ".jsx")
  }

  /** The gate passes every user that has no record yet. */
  lemma UnknownUserProceeds()
    ensures Gate(DefaultRecord) == Proceed
  {
  }

  /** The archive check ignores case. */
  lemma ZipNameIgnoresCase()
    ensures IsZipName("SRC.ZIP") && IsZipName("src.Zip") && !IsZipName("src.zip.txt")
  {
  }

  /** The script check is case-sensitive. */
  lemma ScriptNameIsCaseSensitive()
    ensures IsScriptName("App.jsx") && IsScriptName("index.js")
    ensures !IsScriptName("App.JS") && !IsScriptName("App.JSX") && !IsScriptName("style.json")
  {
  }
}

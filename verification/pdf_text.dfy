/**
 * The text helpers of the invoice PDF: trimming, truncation, joining the
 * non-blank parts of an address, the company record, the customer name,
 * the overflow split of the line table and the status label.
 */
module PdfText {
  import opened Wrappers
  import opened Strings

  /** ECMAScript white space and line terminators, the characters `trim` removes. */
  predicate IsWhitespace(c: char) {
    || c == '\t' || c == '\n' || c == '\U{B}' || c == '\U{C}' || c == '\r' || c == ' '
    || c == '\U{A0}' || c == '\U{1680}' || ('\U{2000}' <= c <= '\U{200A}')
    || c == '\U{2028}' || c == '\U{2029}' || c == '\U{202F}' || c == '\U{205F}'
    || c == '\U{3000}' || c == '\U{FEFF}'
  }

  predicate AllWhitespace(s: string) {
    forall i :: 0 <= i < |s| ==> IsWhitespace(s[i])
  }

  /** `trimStart`: the suffix left after dropping leading white space. */
  function TrimStart(s: string): (r: string)
    ensures |r| <= |s| && r == s[|s| - |r|..]
    ensures AllWhitespace(s[..|s| - |r|])
    ensures r == [] || !IsWhitespace(r[0])
    decreases |s|
  {
    if |s| > 0 && IsWhitespace(s[0]) then
      var r := TrimStart(s[1..]);
      assert s[1..][..|s| - 1 - |r|] == s[1..|s| - |r|];
      r
    else s
  }

  /** `trimEnd`: the prefix left after dropping trailing white space. */
  function TrimEnd(s: string): (r: string)
    ensures |r| <= |s| && r == s[..|r|]
    ensures AllWhitespace(s[|r|..])
    ensures r == [] || !IsWhitespace(r[|r| - 1])
    decreases |s|
  {
    if |s| > 0 && IsWhitespace(s[|s| - 1]) then
      var r := TrimEnd(s[..|s| - 1]);
      assert s[..|s| - 1][|r|..] + [s[|s| - 1]] == s[|r|..];
      r
    else s
  }

  /** `trim`: white space dropped at both ends. */
  function Trim(s: string): (r: string)
    ensures |r| <= |s|
    ensures r == [] || (!IsWhitespace(r[0]) && !IsWhitespace(r[|r| - 1]))
  {
    TrimEnd(TrimStart(s))
  }

  /** A string trims to "" exactly when it is all white space. */
  lemma TrimEmptyIff(s: string)
    ensures Trim(s) == [] <==> AllWhitespace(s)
  {
    var a := TrimStart(s);
    if Trim(s) == [] {
      assert AllWhitespace(a[0..]);
      assert s == s[..|s| - |a|] + a;
    }
  }

  /** Trimming a string with no white space at either end leaves it unchanged. */
  lemma TrimOfTrimmed(s: string)
    requires s == [] || (!IsWhitespace(s[0]) && !IsWhitespace(s[|s| - 1]))
    ensures Trim(s) == s
  {
  }

  /** `trim` is idempotent. */
  lemma TrimIdempotent(s: string)
    ensures Trim(Trim(s)) == Trim(s)
  {
    TrimOfTrimmed(Trim(s));
  }

  /** `isNonEmptyString`: a string (not null/undefined) with a non-white-space character. */
  predicate IsNonEmptyString(v: Option<string>) {
    v.Some? && |Trim(v.value)| > 0
  }

  lemma IsNonEmptyStringIff(v: Option<string>)
    ensures IsNonEmptyString(v) <==> v.Some? && exists i :: 0 <= i < |v.value| && !IsWhitespace(v.value[i])
  {
    if v.Some? {
      TrimEmptyIff(v.value);
    }
  }

  const Ellipsis: char := '\U{2026}'

  /**
   * `r` is the first `keep` characters of `t` with their trailing white space
   * dropped, followed by "…": a prefix of `t[..keep]` that does not end in
   * white space, and everything of `t[..keep]` past it is white space.
   */
  predicate Truncated(t: string, keep: nat, r: string) {
    && keep <= |t|
    && 1 <= |r| <= keep + 1 && r[|r| - 1] == Ellipsis
    && r[..|r| - 1] == t[..|r| - 1]
    && !(|r| >= 2 && IsWhitespace(r[|r| - 2]))
    && forall j :: |r| - 1 <= j < keep ==> IsWhitespace(t[j])
  }

  /** `Truncated` leaves no choice: at most one string is the truncation of `t` at `keep`. */
  lemma TruncatedUnique(t: string, keep: nat, r1: string, r2: string)
    requires Truncated(t, keep, r1) && Truncated(t, keep, r2)
    ensures r1 == r2
  {
    assert |r1| >= 2 ==> r1[|r1| - 2] == t[|r1| - 2];
    assert |r2| >= 2 ==> r2[|r2| - 2] == t[|r2| - 2];
    assert r1 == r1[..|r1| - 1] + [Ellipsis];
    assert r2 == r2[..|r2| - 1] + [Ellipsis];
  }

  /** The first `keep` characters of `t`, trailing white space dropped, then "…". */
  function Shorten(t: string, keep: nat): (r: string)
    requires keep <= |t|
    ensures Truncated(t, keep, r)
  {
    var head := TrimEnd(t[..keep]);
    assert head == t[..|head|];
    assert forall j :: |head| <= j < keep ==> t[j] == t[..keep][|head|..][j - |head|];
    head + [Ellipsis]
  }

  /** How many characters of the text a truncation at `maxChars` keeps before the "…". */
  function Kept(maxChars: int): nat {
    if maxChars - 1 > 0 then maxChars - 1 else 0
  }

  /** The truncation of an already trimmed text. */
  function TruncateTrimmed(t: string, maxChars: int): (r: string)
    ensures |t| <= maxChars ==> r == t
    ensures |t| > maxChars ==> Truncated(t, Kept(maxChars), r)
    ensures maxChars >= 1 ==> |r| <= maxChars
  {
    if |t| <= maxChars then t
    else Shorten(t, Kept(maxChars))
  }

  /**
   * `truncate(value, maxChars)`: the trimmed text when it fits, otherwise its
   * first maxChars − 1 characters, trailing white space dropped, then "…".
   */
  function Truncate(value: Option<string>, maxChars: int): (r: string)
    ensures var t := Trim(value.GetOr(""));
      && (|t| <= maxChars ==> r == t)
      && (|t| > maxChars ==> Truncated(t, Kept(maxChars), r))
    ensures maxChars >= 1 ==> |r| <= maxChars
  {
    TruncateTrimmed(Trim(value.GetOr("")), maxChars)
  }

  /** A truncated text truncates to itself. */
  lemma TruncateIdempotent(value: Option<string>, maxChars: int)
    requires maxChars >= 1
    ensures Truncate(Some(Truncate(value, maxChars)), maxChars) == Truncate(value, maxChars)
  {
    var t := Trim(value.GetOr(""));
    var r := Truncate(value, maxChars);
    if |t| <= maxChars {
      TrimIdempotent(value.GetOr(""));
    } else {
      assert !IsWhitespace(r[|r| - 1]);
      if |r| >= 2 {
        assert r[0] == t[0];
      }
      TrimOfTrimmed(r);
    }
  }

  /** The present, non-blank strings, in their original order (kept untrimmed). */
  function KeepNonEmpty(parts: seq<Option<string>>): (r: seq<string>)
    ensures |r| <= |parts|
    ensures forall i :: 0 <= i < |r| ==> IsNonEmptyString(Some(r[i]))
    ensures forall i :: 0 <= i < |parts| && IsNonEmptyString(parts[i]) ==> parts[i].value in r
    ensures forall x :: x in r ==> Some(x) in parts
    decreases |parts|
  {
    if |parts| == 0 then []
    else
      var rest := KeepNonEmpty(parts[1..]);
      assert forall i :: 1 <= i < |parts| ==> parts[i] == parts[1..][i - 1];
      assert forall x :: Some(x) in parts[1..] ==> Some(x) in parts;
      if IsNonEmptyString(parts[0]) then
        var r := [parts[0].value] + rest;
        assert forall x :: x in r ==> x == parts[0].value || x in rest;
        r
      else rest
  }

  /** Keeping the non-blank parts distributes over concatenation: order is preserved. */
  lemma {:induction false} KeepNonEmptyConcat(a: seq<Option<string>>, b: seq<Option<string>>)
    ensures KeepNonEmpty(a + b) == KeepNonEmpty(a) + KeepNonEmpty(b)
    decreases |a|
  {
    if |a| > 0 {
      assert (a + b)[1..] == a[1..] + b;
      KeepNonEmptyConcat(a[1..], b);
    } else {
      assert a + b == b;
    }
  }

  /** `joinNonEmptyWith(sep, parts)` */
  function JoinNonEmptyWith(sep: string, parts: seq<Option<string>>): string {
    Join(KeepNonEmpty(parts), sep)
  }

  /** `joinNonEmpty(parts)`: joined with a single space. */
  function JoinNonEmpty(parts: seq<Option<string>>): string {
    JoinNonEmptyWith(" ", parts)
  }

  /** The join is empty exactly when no part is a non-blank string. */
  lemma JoinNonEmptyBlankIff(sep: string, parts: seq<Option<string>>)
    ensures JoinNonEmptyWith(sep, parts) == "" <==> forall i :: 0 <= i < |parts| ==> !IsNonEmptyString(parts[i])
  {
    var kept := KeepNonEmpty(parts);
    JoinLength(kept, sep);
    if kept != [] {
      assert |kept[0]| > 0;
      assert |Join(kept, sep)| >= |kept[0]|;
    }
  }

  /* ---------------------------- Company record ---------------------------- */

  /** A company record: field name to value, `None` for null. */
  type Record = map<string, Option<string>>

  const DefaultCompany: Record := map[
    "name" := Some("Gad Garage"),
    "addressLine1" := Some("123 Avenue de la M\U{E9}canique"),
    "addressLine2" := None,
    "postalCode" := Some("75011"),
    "city" := Some("Paris"),
    "country" := Some("FR"),
    "email" := Some("atelier@gadgarage.fr"),
    "phone" := Some("01 45 67 89 10"),
    "website" := None,
    "siret" := Some("800 123 456 00012"),
    "vatNumber" := Some("FR 45 800123456"),
    "legalStatus" := Some("SAS"),
    "capital" := Some("10 000 \U{20AC}"),
    "logoUrl" := None,
    "invoiceFooter" := None,
    "iban" := Some(""),
    "bic" := Some("")]

  /** `{ ...defaults, ...settings }`: every key the settings carry wins, null values included. */
  function MergeCompany(defaults: Record, settings: Option<Record>): (r: Record)
    ensures settings.None? ==> r == defaults
    ensures settings.Some? ==> r.Keys == defaults.Keys + settings.value.Keys
    ensures settings.Some? ==> forall k :: k in settings.value ==> r[k] == settings.value[k]
    ensures settings.Some? ==> forall k :: k in defaults && k !in settings.value ==> r[k] == defaults[k]
  {
    match settings
    case None => defaults
    case Some(s) => defaults + s
  }

  /** A null in the settings hides the default: the merged company then has no name. */
  lemma NullSettingHidesDefault()
    ensures MergeCompany(DefaultCompany, Some(map["name" := None]))["name"] == None
    ensures MergeCompany(DefaultCompany, Some(map["name" := None]))["city"] == Some("Paris")
  {
  }

  /** `customerName`: the company name when truthy, else the non-blank first and last names. */
  function CustomerName(companyName: Option<string>, firstName: Option<string>, lastName: Option<string>): (r: string)
    ensures Truthy(companyName) ==> r == companyName.value
    ensures !Truthy(companyName) ==> r == JoinNonEmpty([firstName, lastName])
  {
    if Truthy(companyName) then companyName.value else JoinNonEmpty([firstName, lastName])
  }

  /** A customer with no company and two blank names gets the empty name (shown as "Client"). */
  lemma CustomerNameBlankIff(companyName: Option<string>, firstName: Option<string>, lastName: Option<string>)
    requires !Truthy(companyName)
    ensures CustomerName(companyName, firstName, lastName) == "" <==>
      !IsNonEmptyString(firstName) && !IsNonEmptyString(lastName)
  {
    var parts := [firstName, lastName];
    JoinNonEmptyBlankIff(" ", parts);
    assert (forall i :: 0 <= i < |parts| ==> !IsNonEmptyString(parts[i])) <==>
      !IsNonEmptyString(parts[0]) && !IsNonEmptyString(parts[1]);
  }

  /* ----------------------------- Line overflow ---------------------------- */

  const MaxItems: nat := 8

  /** `visibleItems` and `hiddenItemsCount` of the line table. */
  function SplitItems<T>(items: seq<T>): (r: (seq<T>, nat))
    ensures |r.0| + r.1 == |items|
    ensures r.0 == items[..|r.0|]
    ensures |r.0| <= MaxItems
    ensures r.1 > 0 ==> |r.0| == MaxItems
    ensures r.1 == if |items| > MaxItems then |items| - MaxItems else 0
  {
    var visible := if |items| <= MaxItems then items else items[..MaxItems];
    var hidden := if |items| > MaxItems then |items| - MaxItems else 0;
    (visible, hidden)
  }

  /* ------------------------------ Status label ---------------------------- */

  /** The French status label; an unknown status is shown as it is. */
  function StatusLabel(status: string): (r: string)
    ensures status == "PAID" ==> r == "Pay\U{E9}e"
    ensures status == "ISSUED" ==> r == "\U{C9}mise"
    ensures status == "DRAFT" ==> r == "Brouillon"
    ensures status == "CANCELED" ==> r == "Annul\U{E9}e"
    ensures status !in {"PAID", "ISSUED", "DRAFT", "CANCELED"} ==> r == status
  {
    if status == "PAID" then "Pay\U{E9}e"
    else if status == "ISSUED" then "\U{C9}mise"
    else if status == "DRAFT" then "Brouillon"
    else if status == "CANCELED" then "Annul\U{E9}e"
    else status
  }

  /** The four statuses get four different labels, none equal to a status code. */
  lemma StatusLabelsDistinct(a: string, b: string)
    requires a in {"PAID", "ISSUED", "DRAFT", "CANCELED"} && b in {"PAID", "ISSUED", "DRAFT", "CANCELED"}
    requires a != b
    ensures StatusLabel(a) != StatusLabel(b)
    ensures StatusLabel(a) != a
  {
  }

  /** The "CANCELLED" spelling is not one of the four and so is shown raw. */
  lemma DoubleLSpellingShownRaw()
    ensures StatusLabel("CANCELLED") == "CANCELLED"
  {
  }
}

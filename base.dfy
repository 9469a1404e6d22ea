/** Shared vocabulary: optional values, the {success, error?, data?} result every server
    action returns, identifiers, and the character-level helpers the validators and the
    string transforms are built from. */
module Base {

  datatype Option<+T> = None | Some(value: T)

  /** The `{ success, error?, data? }` object returned by every server action. */
  datatype ActionResult<+T> = Success(data: T) | Failure(error: string)

  /** Row identifiers (Prisma cuids) and user ids taken from the session token. */
  type Id = string

  /** JavaScript truthiness of an optional string: `undefined` and `''` are falsy. */
  predicate Truthy(s: Option<string>)
  {
    s.Some? && s.value != ""
  }

  /** `x || null` on an optional string, as the actions write it before storing a field. */
  function OrNull(s: Option<string>): (r: Option<string>)
    ensures r.Some? <==> Truthy(s)
    ensures r.Some? ==> r == s
  {
    if Truthy(s) then s else None
  }

  predicate IsDigit(c: char)
  {
    '0' <= c <= '9'
  }

  predicate AllDigits(s: string)
  {
    forall i :: 0 <= i < |s| ==> IsDigit(s[i])
  }

  /** The characters JavaScript's `String.prototype.trim` removes, restricted to a fixed set. */
  predicate IsSpace(c: char)
  {
    c == ' ' || c == '\t' || c == '\n' || c == '\r' || c == '\U{B}' || c == '\U{C}'
    || c == '\U{A0}' || c == '\U{2028}' || c == '\U{2029}' || c == '\U{FEFF}'
  }

  /** Number of leading characters of `s` that satisfy `p`. */
  function LeadingCount(s: string, p: char -> bool): (k: nat)
    ensures k <= |s|
    ensures forall i :: 0 <= i < k ==> p(s[i])
    ensures k < |s| ==> !p(s[k])
  {
    if s == [] || !p(s[0]) then 0 else 1 + LeadingCount(s[1..], p)
  }

  /** `LeadingCount` is fixed by the first character that fails `p`. */
  lemma {:induction false} LeadingCountIs(s: string, p: char -> bool, k: nat)
    requires k <= |s|
    requires forall i :: 0 <= i < k ==> p(s[i])
    requires k < |s| ==> !p(s[k])
    ensures LeadingCount(s, p) == k
  {
    if k > 0 {
      LeadingCountIs(s[1..], p, k - 1);
    }
  }

  /** `xs.join(sep)`. */
  function Join(xs: seq<string>, sep: string): string
  {
    if xs == [] then ""
    else if |xs| == 1 then xs[0]
    else xs[0] + sep + Join(xs[1..], sep)
  }

  /** Decimal rendering of an integer, as JavaScript's `Number.prototype.toString` gives it
      for integral values. */
  function NatToString(n: nat): (s: string)
    ensures |s| >= 1 && AllDigits(s)
    decreases n
  {
    if n < 10 then [DigitChar(n)] else NatToString(n / 10) + [DigitChar(n % 10)]
  }

  function IntToString(n: int): string
  {
    if n < 0 then "-" + NatToString(-n) else NatToString(n)
  }

  function DigitChar(d: nat): (c: char)
    requires d < 10
    ensures IsDigit(c) && DigitValue(c) == d
  {
    ('0' as int + d) as char
  }

  function DigitValue(c: char): nat
    requires IsDigit(c)
  {
    c as int - '0' as int
  }

  /** Value of a string of decimal digits (the inverse of `NatToString`). */
  function DigitsValue(s: string): nat
    requires AllDigits(s)
  {
    if s == [] then 0 else DigitsValue(s[..|s| - 1]) * 10 + DigitValue(s[|s| - 1])
  }

  lemma {:induction false} NatToStringRoundTrip(n: nat)
    ensures DigitsValue(NatToString(n)) == n
    decreases n
  {
    if n >= 10 {
      var s := NatToString(n);
      assert s[..|s| - 1] == NatToString(n / 10);
      NatToStringRoundTrip(n / 10);
    }
  }

  /** A fresh cuid: the database hands out an id no row of the table uses yet. Modelled as a
      string strictly longer than every id already in use. */
  method FreshId(used: set<Id>) returns (id: Id)
    ensures id !in used && id != ""
  {
    id := "c";
    var rest := used;
    while rest != {}
      invariant rest <= used
      invariant id != ""
      invariant forall u :: u in used && u !in rest ==> |u| < |id|
      decreases rest
    {
      var u :| u in rest;
      if |u| >= |id| {
        id := u + "c";
      }
      rest := rest - {u};
    }
  }
}

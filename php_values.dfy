/**
 * The handful of PHP value semantics that the plugin's control flow depends on:
 * truthiness of strings, the attribute escaper `esc_attr`, the `(int)` cast of a
 * string, and the "first truthy value of an if/elseif chain" search.
 */
module PhpValues {

  datatype Option<+T> = None | Some(value: T)

  /** A PHP string is falsy exactly when it is "" or "0" (`if ($s)`, `empty($s)`). */
  predicate Truthy(s: string) {
    s != "" && s != "0"
  }

  // ---------------------------------------------------------------------------
  // esc_attr
  // ---------------------------------------------------------------------------

  /** The characters `esc_attr` turns into HTML entities. */
  predicate IsSpecial(c: char) {
    c == '&' || c == '<' || c == '>' || c == '"' || c == '\''
  }

  /** One character as `esc_attr` writes it (quotes encoded as with ENT_QUOTES). */
  function EscChar(c: char): (r: string)
    ensures !IsSpecial(c) ==> r == [c]
    ensures IsSpecial(c) ==> |r| > 1 && r[0] == '&'
  {
    if c == '&' then "&amp;"
    else if c == '<' then "&lt;"
    else if c == '>' then "&gt;"
    else if c == '"' then "&quot;"
    else if c == '\'' then "&#039;"
    else [c]
  }

  /** `esc_attr`: every special character replaced by its entity. */
  function EscAttr(s: string): (r: string)
    ensures |r| >= |s|
    ensures (forall i :: 0 <= i < |s| ==> !IsSpecial(s[i])) ==> r == s
  {
    if s == [] then [] else EscChar(s[0]) + EscAttr(s[1..])
  }

  /** Escaping never changes whether an attribute value is truthy. */
  lemma {:induction false} EscAttrKeepsTruthiness(s: string)
    ensures Truthy(EscAttr(s)) <==> Truthy(s)
  {
    if |s| == 1 {
      assert EscAttr(s) == EscChar(s[0]) + EscAttr([]);
      assert s == "0" <==> s[0] == '0';
    }
  }

  // ---------------------------------------------------------------------------
  // (int) cast of a string
  // ---------------------------------------------------------------------------

  predicate IsDigit(c: char) {
    '0' <= c <= '9'
  }

  /** The white space PHP skips before a leading number. */
  predicate IsSpace(c: char) {
    c == ' ' || c == '\t' || c == '\n' || c == '\r' || c == '\U{000B}' || c == '\U{000C}'
  }

  function SkipSpace(s: string): (r: string)
    ensures r == [] || !IsSpace(r[0])
    ensures |r| <= |s| && r == s[|s| - |r|..]
  {
    if s != [] && IsSpace(s[0]) then SkipSpace(s[1..]) else s
  }

  /** The longest prefix of `s` made of decimal digits. */
  function LeadingDigits(s: string): (r: string)
    ensures |r| <= |s| && r == s[..|r|]
    ensures forall i :: 0 <= i < |r| ==> IsDigit(r[i])
    ensures |r| < |s| ==> !IsDigit(s[|r|])
  {
    if s != [] && IsDigit(s[0]) then [s[0]] + LeadingDigits(s[1..]) else []
  }

  /** The value of a string of decimal digits, most significant first. */
  function DigitsValue(d: string): (n: nat)
    requires forall i :: 0 <= i < |d| ==> IsDigit(d[i])
  {
    if d == [] then 0
    else
      var last := d[|d| - 1];
      assert IsDigit(last);
      10 * DigitsValue(d[..|d| - 1]) + (last as int - '0' as int)
  }

  /**
   * PHP's `(int)` applied to a string: leading white space is skipped, an
   * optional sign is read, then the longest run of digits; a string that does
   * not start that way casts to 0.
   */
  function IntCast(s: string): int {
    var t := SkipSpace(s);
    if t != [] && t[0] == '-' then 0 - DigitsValue(LeadingDigits(t[1..])) as int
    else if t != [] && t[0] == '+' then DigitsValue(LeadingDigits(t[1..]))
    else DigitsValue(LeadingDigits(t))
  }

  /** Decimal notation of a natural number, the inverse partner of DigitsValue. */
  function NatString(n: nat): (r: string)
    ensures r != []
    ensures forall i :: 0 <= i < |r| ==> IsDigit(r[i])
  {
    if n < 10 then [('0' as int + n) as char]
    else NatString(n / 10) + [('0' as int + n % 10) as char]
  }

  /** Decimal notation of an integer, as PHP writes it (`-` for negatives). */
  function DecimalString(n: int): string {
    if n < 0 then "-" + NatString(-n) else NatString(n)
  }

  lemma {:induction false} DigitsValueOfNatString(n: nat)
    ensures DigitsValue(NatString(n)) == n
  {
    var r := NatString(n);
    if n >= 10 {
      DigitsValueOfNatString(n / 10);
      assert r[..|r| - 1] == NatString(n / 10);
    }
  }

  lemma {:induction false} LeadingDigitsOfDigits(d: string)
    requires forall i :: 0 <= i < |d| ==> IsDigit(d[i])
    ensures LeadingDigits(d) == d
  {
    if d != [] {
      LeadingDigitsOfDigits(d[1..]);
    }
  }

  /** A `max_results` written in decimal casts back to the number it denotes. */
  lemma {:induction false} IntCastOfDecimalString(n: int)
    ensures IntCast(DecimalString(n)) == n
  {
    var m: nat := if n < 0 then -n else n;
    var digits := NatString(m);
    LeadingDigitsOfDigits(digits);
    DigitsValueOfNatString(m);
    var s := DecimalString(n);
    assert !IsSpace(s[0]);
    assert SkipSpace(s) == s;
    if n < 0 {
      assert s[0] == '-' && s[1..] == digits;
    } else {
      assert s == digits && IsDigit(s[0]);
    }
  }

  // ---------------------------------------------------------------------------
  // First truthy value of an if/elseif chain
  // ---------------------------------------------------------------------------

  /**
   * The position of the first truthy string in `vals`: the branch an
   * `if ($a) … elseif ($b) … elseif …` chain over these values takes.
   */
  function FirstTruthyIndex(vals: seq<string>): (r: Option<nat>)
    ensures r.None? <==> forall j :: 0 <= j < |vals| ==> !Truthy(vals[j])
    ensures r.Some? ==> r.value < |vals| && Truthy(vals[r.value])
    ensures r.Some? ==> forall j :: 0 <= j < r.value ==> !Truthy(vals[j])
  {
    if vals == [] then None
    else if Truthy(vals[0]) then Some(0)
    else match FirstTruthyIndex(vals[1..])
      case None => None
      case Some(k) => Some(k + 1)
  }
}

/**
 * The fallback chat-coupon policy (lib/membership_policy.rb): a coupon
 * count chosen by the membership's name and read from the environment,
 * with Ruby's `Integer(value, 10)` as the parser.
 */
module MembershipPolicy {
  import opened Wrappers
  import opened Text

  /** The three overridable environment variables; `None` is an unset variable. */
  datatype Env = Env(couponBasic: Option<string>, couponPremium: Option<string>, couponDefault: Option<string>)

  const NO_OVERRIDES := Env(None, None, None)

  const BASIC := "베이직"
  const PREMIUM := "프리미엄"

  /**
   * Digits with single underscores between them, as Ruby's strict integer
   * parser accepts them: starts and ends with a digit, no `__`.
   */
  predicate DigitBody(b: string) {
    b != [] && IsDigit(b[0]) && IsDigit(b[|b| - 1])
    && (forall i :: 0 <= i < |b| ==> IsDigit(b[i]) || b[i] == '_')
    && (forall i :: 0 <= i < |b| - 1 ==> !(b[i] == '_' && b[i + 1] == '_'))
  }

  /** The digits of a digit body, underscores dropped. */
  function StripUnderscores(b: string): (r: string)
    requires forall i :: 0 <= i < |b| ==> IsDigit(b[i]) || b[i] == '_'
    ensures AllDigits(r)
  {
    if b == [] then [] else (if b[0] == '_' then [] else [b[0]]) + StripUnderscores(b[1..])
  }

  /** A digit body's value; `None` for anything else. */
  function Unsigned(v: string): (r: Option<nat>)
    ensures r.Some? <==> DigitBody(v)
  {
    if DigitBody(v) then Some(DigitsValue(StripUnderscores(v))) else None
  }

  /** The text after an optional `0d` / `0D` radix prefix. */
  function DropRadix(u: string): (v: string)
    ensures |v| <= |u| && forall i :: 0 <= i < |v| ==> v[i] == u[|u| - |v| + i]
  {
    if |u| >= 2 && u[0] == '0' && (u[1] == 'd' || u[1] == 'D') then u[2..] else u
  }

  /** Strict parsing of text that has already been trimmed. */
  function ParseTrimmed(t: string): (r: Option<int>) {
    if t == [] then None
    else
      var u := if t[0] == '-' || t[0] == '+' then t[1..] else t;
      match Unsigned(DropRadix(u))
      case None => None
      case Some(n) =>
        var m: int := n;
        Some(if t[0] == '-' then -m else m)
  }

  /**
   * `Integer(s, 10)`: surrounding whitespace allowed, an optional sign, an
   * optional `0d` radix prefix, then a digit body; `None` where Ruby raises
   * `ArgumentError`.
   */
  function ParseInteger(s: string): Option<int> {
    ParseTrimmed(Trim(s))
  }

  /** Whatever parses holds a digit. */
  lemma ParseNeedsDigit(s: string)
    requires ParseInteger(s).Some?
    ensures exists i :: 0 <= i < |s| && IsDigit(s[i])
  {
    var t := Trim(s);
    var u := if t[0] == '-' || t[0] == '+' then t[1..] else t;
    var v := DropRadix(u);
    assert DigitBody(v);
    assert t[|t| - |v|] == v[0];
    TrimKeepsChars(s, v[0]);
  }

  /** A character that survives trimming was in the original string. */
  lemma TrimKeepsChars(s: string, c: char)
    requires c in Trim(s)
    ensures exists i :: 0 <= i < |s| && s[i] == c
  {
    var l := TrimLeft(s);
    var r := TrimRight(l);
    var k :| 0 <= k < |r| && r[k] == c;
    assert l[k] == c;
    TrimLeftAt(s, k);
  }

  /** `env_int`: the parsed value, or 0 when parsing fails. */
  function EnvInt(value: string): int {
    ParseInteger(value).GetOr(0)
  }

  /**
   * `env_int(ENV.fetch(key, default))`: the parsed variable when set, else
   * the default text's value, given here already parsed (`FetchDefaults`
   * shows that "0" and "30" parse to 0 and 30).
   */
  function EnvOr(value: Option<string>, parsedDefault: int): int {
    match value
    case None => parsedDefault
    case Some(s) => EnvInt(s)
  }

  /**
   * `coupon_count_for`: a nil name reads as "". A name containing 베이직 is
   * checked first and uses `COUPON_BASIC` (default "0"); else one containing
   * 프리미엄 uses `COUPON_PREMIUM` (default "30"); anything else uses
   * `COUPON_DEFAULT` (default "0"). The patterns' `/i` flag changes nothing
   * for Hangul.
   */
  function CouponCountFor(name: Option<string>, env: Env): (r: int)
    ensures Contains(name.GetOr(""), BASIC) ==> r == EnvOr(env.couponBasic, 0)
    ensures !Contains(name.GetOr(""), BASIC) && Contains(name.GetOr(""), PREMIUM) ==> r == EnvOr(env.couponPremium, 30)
    ensures !Contains(name.GetOr(""), BASIC) && !Contains(name.GetOr(""), PREMIUM) ==> r == EnvOr(env.couponDefault, 0)
  {
    var n := name.GetOr("");
    if Contains(n, BASIC) then EnvOr(env.couponBasic, 0)
    else if Contains(n, PREMIUM) then EnvOr(env.couponPremium, 30)
    else EnvOr(env.couponDefault, 0)
  }

  /** Reading a variable with its default text, as `ENV.fetch` does, agrees with `EnvOr`. */
  lemma FetchDefaults(value: Option<string>)
    ensures EnvOr(value, 0) == EnvInt(value.GetOr("0"))
    ensures EnvOr(value, 30) == EnvInt(value.GetOr("30"))
  {
    EnvIntLiterals();
  }

  /** Removing underscores from a plain digit string changes nothing. */
  lemma {:induction false} StripUnderscoresDigits(b: string)
    requires AllDigits(b)
    ensures StripUnderscores(b) == b
  {
    if b != [] {
      StripUnderscoresDigits(b[1..]);
      assert b == [b[0]] + b[1..];
    }
  }

  /** A plain digit string is its own unsigned value. */
  lemma UnsignedDigits(d: string)
    requires d != [] && AllDigits(d)
    ensures Unsigned(d) == Some(DigitsValue(d))
  {
    assert DigitBody(d);
    StripUnderscoresDigits(d);
  }

  /** Parsing text with no surrounding whitespace skips the trimming step. */
  lemma ParseUntrimmed(s: string)
    requires s != [] && !IsSpace(s[0]) && !IsSpace(s[|s| - 1])
    ensures ParseInteger(s) == ParseTrimmed(s)
  {
    TrimIdentity(s);
  }

  /** A rendered natural number parses, unsigned, to itself. */
  lemma ParseTrimmedNat(n: nat)
    ensures ParseTrimmed(NatToString(n)) == Some(n)
  {
    var s := NatToString(n);
    assert IsDigit(s[0]);
    assert DropRadix(s) == s;
    UnsignedDigits(s);
    DigitsValueNatToString(n);
  }

  /** Parsing a rendered digit string gives back its value. */
  lemma ParseNatString(n: nat)
    ensures ParseInteger(NatToString(n)) == Some(n)
  {
    var s := NatToString(n);
    assert IsDigit(s[0]) && IsDigit(s[|s| - 1]);
    ParseUntrimmed(s);
    ParseTrimmedNat(n);
  }

  /** `env_int` reads back every rendered integer. */
  lemma EnvIntRoundTrip(n: int)
    ensures EnvInt(IntToString(n)) == n
  {
    if n >= 0 {
      ParseNatString(n);
    } else {
      var d := NatToString(-n);
      var s := "-" + d;
      assert IsDigit(d[|d| - 1]);
      assert s[0] == '-' && s[|s| - 1] == d[|d| - 1];
      ParseUntrimmed(s);
      assert s[1..] == d;
      ParseTrimmedNegative(s, d);
      DigitsValueNatToString(-n);
    }
  }

  /** A '-' before a plain digit string negates its value. */
  lemma ParseTrimmedNegative(t: string, d: string)
    requires t != [] && t[0] == '-' && t[1..] == d && d != [] && AllDigits(d)
    ensures ParseTrimmed(t) == Some(0 - DigitsValue(d))
  {
    RadixFreeDigits(d);
    UnsignedDigits(d);
    assert Unsigned(DropRadix(t[1..])) == Some(DigitsValue(d));
    ParseTrimmedMinus(t, DigitsValue(d));
  }

  /** A digit string has no radix prefix to drop. */
  lemma RadixFreeDigits(d: string)
    requires d != [] && AllDigits(d)
    ensures DropRadix(d) == d
  {
    if |d| >= 2 {
      assert IsDigit(d[1]);
    }
  }

  /** How a leading '-' is read. */
  lemma ParseTrimmedMinus(t: string, n: nat)
    requires t != [] && t[0] == '-' && Unsigned(DropRadix(t[1..])) == Some(n)
    ensures ParseTrimmed(t) == Some(0 - n)
  {
  }

  /** A value with no digit at all, such as "" or "abc", reads as 0. */
  lemma EnvIntWithoutDigits(value: string)
    requires forall i :: 0 <= i < |value| ==> !IsDigit(value[i])
    ensures EnvInt(value) == 0
  {
    if ParseInteger(value).Some? {
      ParseNeedsDigit(value);
    }
  }

  /** The two default texts read as 0 and 30. */
  lemma EnvIntLiterals()
    ensures EnvInt("0") == 0 && EnvInt("30") == 30
  {
    assert NatToString(30) == "30" by {
      assert NatToString(3) == "3";
    }
    assert NatToString(0) == "0";
    ParseNatString(0);
    ParseNatString(30);
  }

  /** With nothing overridden the policy grants 0 for basic, 30 for premium and 0 otherwise. */
  lemma DefaultPolicy(name: Option<string>)
    ensures Contains(name.GetOr(""), BASIC) ==> CouponCountFor(name, NO_OVERRIDES) == 0
    ensures !Contains(name.GetOr(""), BASIC) && Contains(name.GetOr(""), PREMIUM) ==> CouponCountFor(name, NO_OVERRIDES) == 30
    ensures !Contains(name.GetOr(""), BASIC) && !Contains(name.GetOr(""), PREMIUM) ==> CouponCountFor(name, NO_OVERRIDES) == 0
  {
  }

  /** A nil name reads as "" and falls to the default. */
  lemma NilNameIsDefault(env: Env)
    ensures CouponCountFor(None, env) == EnvOr(env.couponDefault, 0)
  {
    assert !Contains("", BASIC);
    assert !Contains("", PREMIUM);
  }
}

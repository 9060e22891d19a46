/**
 * The mock payment gateway (lib/pg_mock_client.rb): light card checks,
 * then a charge that always succeeds with a random payment id.
 *
 * The checks use Ruby regular expressions whose `^` and `$` anchor at line
 * boundaries, so a field passes when any one of its '\n'-separated lines
 * has the required form.
 */
module PgMockClient {
  import opened Wrappers
  import opened Text

  /** The card hash; `None` is a key that is absent (or nil). */
  datatype Card = Card(number: Option<string>, expiry: Option<string>, cvv: Option<string>)

  /** `PaymentResult`: payment id, charged amount and status. */
  datatype PaymentResult = PaymentResult(paymentId: string, amount: int, status: string)

  /** `charge` either returns a result or raises `ArgumentError` with a message. */
  datatype ChargeOutcome = Charged(result: PaymentResult) | Rejected(message: string)

  const INVALID_NUMBER := "invalid card number"
  const INVALID_EXPIRY := "invalid expiry"
  const INVALID_CVV := "invalid cvv"

  /** `to_s`: nil reads as "". */
  function ToS(s: Option<string>): string {
    s.GetOr("")
  }

  /** `gsub(/\s+|-/, '')`: every whitespace character and every '-' removed. */
  function NormalizeNumber(s: string): (r: string)
    ensures |r| <= |s|
  {
    if s == [] then []
    else (if IsSpace(s[0]) || s[0] == '-' then [] else [s[0]]) + NormalizeNumber(s[1..])
  }

  /** Normalisation works piece by piece. */
  lemma {:induction false} NormalizeNumberAppend(a: string, b: string)
    ensures NormalizeNumber(a + b) == NormalizeNumber(a) + NormalizeNumber(b)
  {
    if a == [] {
      assert a + b == b;
    } else {
      var h := if IsSpace(a[0]) || a[0] == '-' then [] else [a[0]];
      NormalizeNumberAppend(a[1..], b);
      assert (a + b)[0] == a[0];
      assert (a + b)[1..] == a[1..] + b;
      assert NormalizeNumber(a + b) == h + NormalizeNumber(a[1..] + b);
      assert NormalizeNumber(a) == h + NormalizeNumber(a[1..]);
    }
  }

  /** Spaces and dashes between digit groups are ignored: "1234-5678 9012" reads as the twelve digits. */
  lemma NumberSeparatorsIgnored(a: string, b: string, c: string)
    requires AllDigits(a) && AllDigits(b) && AllDigits(c)
    ensures NormalizeNumber(a + "-" + b + " " + c) == a + b + c
  {
    assert NormalizeNumber("-") == [] && NormalizeNumber(" ") == [];
    NormalizeDigits(a);
    NormalizeDigits(b);
    NormalizeDigits(c);
    NormalizeNumberAppend(a, "-");
    assert NormalizeNumber(a + "-") == a;
    NormalizeNumberAppend(a + "-", b);
    assert NormalizeNumber(a + "-" + b) == a + b;
    NormalizeNumberAppend(a + "-" + b, " ");
    assert NormalizeNumber(a + "-" + b + " ") == a + b;
    NormalizeNumberAppend(a + "-" + b + " ", c);
  }

  lemma {:induction false} NormalizeDigits(d: string)
    requires AllDigits(d)
    ensures NormalizeNumber(d) == d
  {
    if d != [] {
      NormalizeDigits(d[1..]);
      assert d == [d[0]] + d[1..];
    }
  }

  /** `\d{12,19}` as a whole line. */
  predicate NumberLine(l: string) {
    12 <= |l| <= 19 && AllDigits(l)
  }

  /** `\d{2}\/\d{2}` as a whole line. */
  predicate ExpiryLine(l: string) {
    |l| == 5 && IsDigit(l[0]) && IsDigit(l[1]) && l[2] == '/' && IsDigit(l[3]) && IsDigit(l[4])
  }

  /** `\d{3,4}` as a whole line. */
  predicate CvvLine(l: string) {
    3 <= |l| <= 4 && AllDigits(l)
  }

  /** `match?(/^…$/)` with a line-anchored pattern: some line of `s` has the form. */
  predicate SomeExpiryLine(s: string) {
    var lines := SplitAll(s, '\n');
    exists k :: 0 <= k < |lines| && ExpiryLine(lines[k])
  }

  predicate SomeCvvLine(s: string) {
    var lines := SplitAll(s, '\n');
    exists k :: 0 <= k < |lines| && CvvLine(lines[k])
  }

  /**
   * `validate_card!`: the number (whitespace and '-' removed) must be 12 to
   * 19 digits, then the expiry `MM/YY`, then the CVV 3 or 4 digits; the first
   * failing check names the error. The normalised number holds no line
   * break, so its check is on the whole string.
   */
  function ValidateCard(card: Card): (err: Option<string>)
    ensures err.None? <==> NumberLine(NormalizeNumber(ToS(card.number))) && SomeExpiryLine(ToS(card.expiry)) && SomeCvvLine(ToS(card.cvv))
    ensures !NumberLine(NormalizeNumber(ToS(card.number))) ==> err == Some(INVALID_NUMBER)
    ensures NumberLine(NormalizeNumber(ToS(card.number))) && !SomeExpiryLine(ToS(card.expiry)) ==> err == Some(INVALID_EXPIRY)
    ensures err.Some? ==> err.value in {INVALID_NUMBER, INVALID_EXPIRY, INVALID_CVV}
  {
    if !NumberLine(NormalizeNumber(ToS(card.number))) then Some(INVALID_NUMBER)
    else if !SomeExpiryLine(ToS(card.expiry)) then Some(INVALID_EXPIRY)
    else if !SomeCvvLine(ToS(card.cvv)) then Some(INVALID_CVV)
    else None
  }

  /** A missing field reads as "" and fails its check. */
  lemma MissingFieldsFail(card: Card)
    ensures card.number.None? ==> ValidateCard(card) == Some(INVALID_NUMBER)
    ensures card.expiry.None? ==> ValidateCard(card).Some?
    ensures card.cvv.None? ==> ValidateCard(card).Some?
  {
    assert SplitAll("", '\n') == [""];
  }

  /**
   * Because `^` and `$` are line anchors, an expiry with arbitrary text on
   * an earlier line still passes.
   */
  lemma ExpiryOnLaterLinePasses(junk: string, e: string)
    requires '\n' !in junk && ExpiryLine(e)
    ensures SomeExpiryLine(junk + "\n" + e)
  {
    assert '\n' !in e;
    SplitAllNoSep(e, '\n');
    SplitAllCons(junk, '\n', e);
    assert junk + ['\n'] + e == junk + "\n" + e;
    assert SplitAll(junk + "\n" + e, '\n')[1] == e;
  }

  /** An uppercase hexadecimal digit. */
  predicate IsHexDigit(c: char) {
    ('0' <= c <= '9') || ('A' <= c <= 'F')
  }

  predicate IsByte(b: int) {
    0 <= b < 256
  }

  /** The uppercase hex digit for a value below 16. */
  function HexDigit(v: int): (c: char)
    requires 0 <= v < 16
    ensures IsHexDigit(c)
  {
    if v < 10 then ('0' as int + v) as char else ('A' as int + v - 10) as char
  }

  /** Two uppercase hex digits for one byte, high nibble first. */
  function HexByte(b: int): string
    requires IsByte(b)
  {
    [HexDigit(b / 16), HexDigit(b % 16)]
  }

  /** `SecureRandom.hex(n).upcase` for the bytes drawn. */
  function HexUpper(bytes: seq<int>): (r: string)
    requires forall i :: 0 <= i < |bytes| ==> IsByte(bytes[i])
    ensures |r| == 2 * |bytes|
    ensures forall i :: 0 <= i < |r| ==> IsHexDigit(r[i])
  {
    if bytes == [] then [] else HexByte(bytes[0]) + HexUpper(bytes[1..])
  }

  /** The value of one uppercase hex digit; the inverse of `HexDigit`. */
  function HexValue(c: char): (v: int)
    requires IsHexDigit(c)
    ensures 0 <= v < 16 && HexDigit(v) == c
  {
    if '0' <= c <= '9' then (c - '0') as int else (c - 'A') as int + 10
  }

  /** Reads pairs of hex digits back into bytes. */
  function HexDecode(s: string): (bytes: seq<int>)
    requires |s| % 2 == 0 && forall i :: 0 <= i < |s| ==> IsHexDigit(s[i])
    ensures |bytes| == |s| / 2
  {
    if s == [] then [] else [HexValue(s[0]) * 16 + HexValue(s[1])] + HexDecode(s[2..])
  }

  /** The payment id's hex part encodes the random bytes drawn, so ids from distinct draws differ. */
  lemma {:induction false} HexRoundTrip(bytes: seq<int>)
    requires forall i :: 0 <= i < |bytes| ==> IsByte(bytes[i])
    ensures HexDecode(HexUpper(bytes)) == bytes
  {
    if bytes != [] {
      var b := bytes[0];
      var h := HexUpper(bytes);
      HexRoundTrip(bytes[1..]);
      assert h == HexByte(b) + HexUpper(bytes[1..]);
      assert h[2..] == HexUpper(bytes[1..]);
      assert h[0] == HexDigit(b / 16) && h[1] == HexDigit(b % 16);
      assert HexValue(h[0]) == b / 16 && HexValue(h[1]) == b % 16;
    }
  }

  /**
   * `charge`: validates the card, then returns `PAY_` followed by the
   * uppercase hex of eight random bytes, the given amount and "completed".
   * `random` is the draw `SecureRandom` would make.
   */
  function Charge(amount: int, card: Card, random: seq<int>): (r: ChargeOutcome)
    requires |random| == 8 && forall i :: 0 <= i < 8 ==> IsByte(random[i])
    ensures r.Rejected? <==> ValidateCard(card).Some?
    ensures r.Rejected? ==> r.message == ValidateCard(card).value
    ensures r.Charged? ==> r.result.amount == amount && r.result.status == "completed"
    ensures r.Charged? ==> |r.result.paymentId| == 20 && r.result.paymentId[..4] == "PAY_"
    ensures r.Charged? ==> forall i :: 4 <= i < 20 ==> IsHexDigit(r.result.paymentId[i])
  {
    match ValidateCard(card)
    case Some(message) => Rejected(message)
    case None => Charged(PaymentResult("PAY_" + HexUpper(random), amount, "completed"))
  }

  /** The id of a successful charge determines the random draw. */
  lemma ChargeIdEncodesDraw(amount: int, card: Card, random: seq<int>)
    requires |random| == 8 && forall i :: 0 <= i < 8 ==> IsByte(random[i])
    requires Charge(amount, card, random).Charged?
    ensures HexDecode(Charge(amount, card, random).result.paymentId[4..]) == random
  {
    var id := Charge(amount, card, random).result.paymentId;
    assert id[4..] == HexUpper(random);
    HexRoundTrip(random);
  }
}

/** Decimal payment references, idempotency keys, and the transaction ids of the local provider. */
module References {
  import opened Foundations
  import opened Schema

  // ---------------------------------------------------------------- printing and parsing

  function Digit(d: nat): char
    requires d < 10
  {
    '0' + d as char
  }

  /** `str(n)` for a non-negative integer. */
  function Print(n: nat): string {
    if n < 10 then [Digit(n)] else Print(n / 10) + [Digit(n % 10)]
  }

  /**
   * A table of decimal digits: the value of each decimal character, negative for every other
   * character. Unicode has many decimal digits; only the ASCII ones are fixed here.
   */
  ghost predicate DigitTable(value: char -> int) {
    && (forall d: nat {:trigger Digit(d)} | d < 10 :: value(Digit(d)) == d)
    && (forall c :: value(c) < 10)
  }

  /** `s.isdecimal()`. */
  predicate IsDecimal(s: string, value: char -> int) {
    s != "" && forall c <- s :: 0 <= value(c)
  }

  /** `int(s)` for a decimal string. */
  function ToInt(s: string, value: char -> int): int {
    if s == "" then 0 else ToInt(s[..|s| - 1], value) * 10 + value(s[|s| - 1])
  }

  lemma {:induction false} ToIntIsNat(s: string, value: char -> int)
    requires forall c <- s :: 0 <= value(c)
    ensures 0 <= ToInt(s, value)
  {
    if s != "" {
      ToIntIsNat(s[..|s| - 1], value);
      assert s[|s| - 1] in s;
    }
  }

  /** The webhook's check of a payment reference, and the id it denotes. */
  function ParseReference(reference: string, value: char -> int): Option<PaymentId> {
    if IsDecimal(reference, value) then
      ToIntIsNat(reference, value);
      if Print(ToInt(reference, value)) == reference then Some(ToInt(reference, value)) else None
    else None
  }

  lemma {:induction false} ParsePrinted(n: nat, value: char -> int)
    requires DigitTable(value)
    ensures IsDecimal(Print(n), value) && ToInt(Print(n), value) == n
  {
    assert value(Digit(n % 10)) == n % 10;
    if n >= 10 {
      ParsePrinted(n / 10, value);
      var s := Print(n);
      assert s[..|s| - 1] == Print(n / 10);
    } else {
      assert Print(n)[..0] == "";
    }
  }

  /**
   * The webhook accepts exactly the canonical decimal strings, whatever other Unicode digits
   * exist, and reads back the id that was printed.
   */
  lemma ReferenceRoundTrip(reference: string, id: PaymentId, value: char -> int)
    requires DigitTable(value)
    ensures ParseReference(reference, value) == Some(id) <==> reference == Print(id)
  {
    ParsePrinted(id, value);
  }

  lemma PrintInjective(a: nat, b: nat)
    requires Print(a) == Print(b)
    ensures a == b
  {
    var value := c => if '0' <= c <= '9' then (c - '0') as int else -1;
    ParsePrinted(a, value);
    ParsePrinted(b, value);
  }

  // ---------------------------------------------------------------- provider-side identifiers

  /** The idempotency key of every creation call for a payment. */
  function IdempotencyKey(payment: PaymentId): string {
    "payment-" + Print(payment)
  }

  predicate IsSafe(c: char) {
    'a' <= c <= 'z' || 'A' <= c <= 'Z' || '0' <= c <= '9' || c == '-'
  }

  function Lower(c: char): char {
    if 'A' <= c <= 'Z' then c - 'A' + 'a' else c
  }

  /** The lower-cased key with every character dropped that is not ASCII alphanumeric or a hyphen. */
  function SafeKey(key: string): string {
    if key == "" then ""
    else
      var rest := SafeKey(key[..|key| - 1]);
      var c := Lower(key[|key| - 1]);
      if IsSafe(c) then rest + [c] else rest
  }

  const LOCAL_PREFIX: string := "local-pay-"
  const MAX_REFERENCE: nat := 255

  /** The transaction id `LocalPaymentProvider.create_payment` returns. */
  function LocalReference(key: string): string {
    var reference := LOCAL_PREFIX + SafeKey(key);
    if |reference| <= MAX_REFERENCE then reference else reference[..MAX_REFERENCE]
  }

  /** Character by character: capitals become small, small letters, digits and hyphens stay, anything else goes. */
  lemma {:induction false} SafeKeyIsExact(key: string, c: char)
    ensures SafeKey("") == ""
    ensures SafeKey(key + [c]) == SafeKey(key) +
              if 'A' <= c <= 'Z' then [c - 'A' + 'a']
              else if 'a' <= c <= 'z' || '0' <= c <= '9' || c == '-' then [c] else ""
  {
    assert (key + [c])[..|key|] == key;
  }

  /** Whatever the key, a local transaction id fits the column, and is all of the prefixed key that fits. */
  lemma LocalReferenceFits(key: string)
    ensures |LocalReference(key)| <= 255 && LocalReference(key) <= "local-pay-" + SafeKey(key)
    ensures |LocalReference(key)| < 255 ==> LocalReference(key) == "local-pay-" + SafeKey(key)
  {
  }

  lemma SafeKeyKeepsDigit(s: string, d: nat)
    requires d < 10
    ensures SafeKey(s + [Digit(d)]) == SafeKey(s) + [Digit(d)]
  {
    assert (s + [Digit(d)])[..|s|] == s;
    assert Lower(Digit(d)) == Digit(d) && IsSafe(Digit(d));
  }

  lemma {:induction false} SafeKeyKeepsPrinted(prefix: string, n: nat)
    requires SafeKey(prefix) == prefix
    ensures SafeKey(prefix + Print(n)) == prefix + Print(n)
  {
    hide SafeKey, Digit;
    if n < 10 {
      SafeKeyKeepsDigit(prefix, n);
    } else {
      SafeKeyKeepsPrinted(prefix, n / 10);
      assert prefix + Print(n) == prefix + Print(n / 10) + [Digit(n % 10)];
      SafeKeyKeepsDigit(prefix + Print(n / 10), n % 10);
    }
  }

  lemma {:induction false} PrintLength(n: nat, digits: nat, bound: nat)
    requires digits >= 1 && n < bound && bound == Power10(digits)
    ensures |Print(n)| <= digits
  {
    if n >= 10 {
      PrintLength(n / 10, digits - 1, Power10(digits - 1));
    }
  }

  function Power10(e: nat): nat {
    if e == 0 then 1 else 10 * Power10(e - 1)
  }

  lemma {:induction false} SafePrefix()
    ensures SafeKey("payment-") == "payment-"
  {
    assert "payment-"[..7] == "payment";
    assert "payment"[..6] == "paymen";
    assert "paymen"[..5] == "payme";
    assert "payme"[..4] == "paym";
    assert "paym"[..3] == "pay";
    assert "pay"[..2] == "pa";
    assert "pa"[..1] == "p";
    assert "p"[..0] == "";
  }

  /** Ids of at most 237 digits give complete local transaction ids within the column bound. */
  lemma LocalReferenceShape(id: PaymentId)
    requires |Print(id)| <= 237
    ensures LocalReference(IdempotencyKey(id)) == LOCAL_PREFIX + "payment-" + Print(id)
    ensures |LocalReference(IdempotencyKey(id))| <= MAX_REFERENCE
  {
    SafePrefix();
    SafeKeyKeepsPrinted("payment-", id);
    hide Print, SafeKey;
    assert LOCAL_PREFIX + IdempotencyKey(id) == LOCAL_PREFIX + "payment-" + Print(id);
  }

  /** Distinct payments get distinct idempotency keys and distinct local transaction ids. */
  lemma LocalReferencesDiffer(a: PaymentId, b: PaymentId)
    requires |Print(a)| <= 237 && |Print(b)| <= 237
    ensures IdempotencyKey(a) == IdempotencyKey(b) ==> a == b
    ensures LocalReference(IdempotencyKey(a)) == LocalReference(IdempotencyKey(b)) ==> a == b
  {
    LocalReferenceShape(a);
    LocalReferenceShape(b);
    SamePrefix("payment-", Print(a), Print(b));
    SamePrefix(LOCAL_PREFIX + "payment-", Print(a), Print(b));
    hide SafeKey, Print;
    if Print(a) == Print(b) {
      PrintInjective(a, b);
    }
  }

  lemma SamePrefix(prefix: string, x: string, y: string)
    ensures prefix + x == prefix + y ==> x == y
  {
    assert (prefix + x)[|prefix|..] == x;
    assert (prefix + y)[|prefix|..] == y;
  }

  /** Every 64-bit row id prints in at most 19 digits, so all of them are covered. */
  lemma RowIdsAreShort(id: nat)
    requires id < 0x8000_0000_0000_0000
    ensures |Print(id)| <= 19
  {
    assert Power10(10) == 10_000_000_000;
    assert Power10(19) == 10_000_000_000_000_000_000;
    PrintLength(id, 19, Power10(19));
  }
}

/** Decimal printing and parsing of instance ids, as strconv.Itoa and strconv.Atoi do it.
    Instance ids are strings, the controller prints ordinals into them and parses whatever
    label it finds on a pod, so `Parse` accepts every string. */
module Decimal {

  const MAX_INT64: int := 0x7FFF_FFFF_FFFF_FFFF
  const MIN_INT64: int := -0x8000_0000_0000_0000

  /** What Atoi returns: a value, or one of its two errors. A range error carries the clamped value. */
  datatype Parsed = Number(value: int) | BadSyntax | OutOfRange(clamped: int)

  predicate IsDigit(c: char) {
    '0' <= c <= '9'
  }

  predicate AllDigits(s: string) {
    forall i :: 0 <= i < |s| ==> IsDigit(s[i])
  }

  function DigitChar(d: nat): char
    requires d < 10
  {
    ('0' as int + d) as char
  }

  /** Itoa on the naturals. */
  function Print(n: nat): (s: string)
    ensures s != [] && AllDigits(s)
  {
    if n < 10 then [DigitChar(n)] else Print(n / 10) + [DigitChar(n % 10)]
  }

  function DigitsValue(s: string): nat
    requires AllDigits(s)
  {
    if s == [] then 0
    else 10 * DigitsValue(s[..|s| - 1]) + (s[|s| - 1] as int - '0' as int)
  }

  /** Atoi: an optional sign, then at least one digit, within 64 bits. */
  function Parse(s: string): Parsed {
    var signed := s != [] && (s[0] == '-' || s[0] == '+');
    var body := if signed then s[1..] else s;
    if body == [] || !AllDigits(body) then BadSyntax
    else
      var digits: int := DigitsValue(body);
      var v := if signed && s[0] == '-' then -digits else digits;
      if v > MAX_INT64 then OutOfRange(MAX_INT64)
      else if v < MIN_INT64 then OutOfRange(MIN_INT64)
      else Number(v)
  }

  /** The first result of Atoi when the caller drops the error. */
  function ValueOrZero(s: string): int {
    match Parse(s)
    case Number(v) => v
    case BadSyntax => 0
    case OutOfRange(v) => v
  }

  lemma {:induction false} DigitsOfPrint(n: nat)
    ensures DigitsValue(Print(n)) == n
  {
    if n >= 10 {
      DigitsOfPrint(n / 10);
      assert Print(n)[..|Print(n)| - 1] == Print(n / 10);
    }
  }

  /** Print then parse is the identity on every ordinal a 64-bit counter can hold. */
  lemma ParsePrint(n: nat)
    requires n <= MAX_INT64
    ensures Parse(Print(n)) == Number(n)
    ensures ValueOrZero(Print(n)) == n
  {
    DigitsOfPrint(n);
    assert IsDigit(Print(n)[0]);
  }

  lemma PrintInjective(m: nat, n: nat)
    requires Print(m) == Print(n)
    ensures m == n
  {
    DigitsOfPrint(m);
    DigitsOfPrint(n);
  }

  // ---------------------------------------------------------------- which strings parse

  function Zeros(k: nat): (s: string)
    ensures |s| == k && AllDigits(s)
  {
    if k == 0 then "" else Zeros(k - 1) + ['0']
  }

  /** A sign or none, any number of zeros, and the canonical digits of a number. */
  predicate Spells(s: string, sign: string, zeros: nat, n: nat) {
    sign in {"", "+", "-"} && s == sign + Zeros(zeros) + Print(n)
  }

  function Signed(sign: string, n: nat): int {
    var v: int := n;
    if sign == "-" then -v else v
  }

  function Clamped(v: int): Parsed {
    if v > MAX_INT64 then OutOfRange(MAX_INT64) else if v < MIN_INT64 then OutOfRange(MIN_INT64) else Number(v)
  }

  lemma {:induction false} ZerosAddNothing(zeros: nat, s: string)
    requires AllDigits(s)
    ensures AllDigits(Zeros(zeros) + s) && DigitsValue(Zeros(zeros) + s) == DigitsValue(s)
  {
    var padded := Zeros(zeros) + s;
    if s != [] {
      ZerosAddNothing(zeros, s[..|s| - 1]);
      assert padded[..|padded| - 1] == Zeros(zeros) + s[..|s| - 1];
    } else if zeros > 0 {
      ZerosAddNothing(zeros - 1, []);
      assert Zeros(zeros - 1) + [] == Zeros(zeros - 1) && padded == Zeros(zeros);
      assert padded[..|padded| - 1] == Zeros(zeros - 1);
    }
  }

  lemma {:induction false} DigitsArePadded(s: string) returns (zeros: nat)
    requires s != [] && AllDigits(s)
    ensures s == Zeros(zeros) + Print(DigitsValue(s))
  {
    var init, last := s[..|s| - 1], s[|s| - 1];
    assert IsDigit(last);
    if init == [] {
      zeros := 0;
      assert s == [last] && DigitsValue(s) == last as int - '0' as int;
    } else {
      zeros := DigitsArePadded(init);
      zeros := PaddedByOneMore(s, zeros);
    }
  }

  lemma PaddedByOneMore(s: string, before: nat) returns (zeros: nat)
    requires |s| >= 2 && AllDigits(s)
    requires s[..|s| - 1] == Zeros(before) + Print(DigitsValue(s[..|s| - 1]))
    ensures s == Zeros(zeros) + Print(DigitsValue(s))
  {
    var init, last := s[..|s| - 1], s[|s| - 1];
    assert IsDigit(last) && s == init + [last];
    if DigitsValue(init) == 0 {
      zeros := before + 1;
      assert Zeros(before) + Print(0) == Zeros(zeros);
    } else {
      zeros := before;
      assert Print(DigitsValue(s)) == Print(DigitsValue(init)) + [last];
    }
  }

  lemma ParseSplit(s: string, sign: string, body: string)
    requires sign in {"", "+", "-"} && s == sign + body && body != [] && AllDigits(body)
    ensures Parse(s) == Clamped(Signed(sign, DigitsValue(body)))
  {
    assert IsDigit(body[0]);
    if sign == "" {
      assert s == body;
    } else {
      assert s[1..] == body;
    }
  }

  /** What is spelled parses to its value, clamped to 64 bits. */
  lemma SpelledParses(s: string, sign: string, zeros: nat, n: nat)
    requires Spells(s, sign, zeros, n)
    ensures Parse(s) == Clamped(Signed(sign, n))
  {
    var body := Zeros(zeros) + Print(n);
    ZerosAddNothing(zeros, Print(n));
    DigitsOfPrint(n);
    assert s == sign + body;
    ParseSplit(s, sign, body);
  }

  lemma SplitOfParsed(s: string) returns (sign: string, body: string)
    requires Parse(s) != BadSyntax
    ensures sign in {"", "+", "-"} && s == sign + body && body != [] && AllDigits(body)
  {
    if s[0] == '-' || s[0] == '+' {
      sign, body := [s[0]], s[1..];
      assert sign == "+" || sign == "-";
    } else {
      sign, body := "", s;
    }
  }

  /** Nothing else parses: the strings without a syntax error are exactly the spelled ones. */
  lemma ParsesExactlySpelled(s: string)
    ensures Parse(s) != BadSyntax <==> exists sign, zeros, n :: Spells(s, sign, zeros, n)
  {
    if Parse(s) != BadSyntax {
      var sign, body := SplitOfParsed(s);
      var zeros := DigitsArePadded(body);
      SpelledBy(s, sign, body, zeros, DigitsValue(body));
    }
    if sign, zeros, n :| Spells(s, sign, zeros, n) {
      SpelledParses(s, sign, zeros, n);
    }
  }

  lemma SpelledBy(s: string, sign: string, body: string, zeros: nat, n: nat)
    requires sign in {"", "+", "-"} && s == sign + body && body == Zeros(zeros) + Print(n)
    ensures Spells(s, sign, zeros, n)
  {
    assert s == sign + Zeros(zeros) + Print(n);
  }
}

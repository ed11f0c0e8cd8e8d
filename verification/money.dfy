/** Receipt amounts (ocr/receipt_parser.py): separators are guessed, and one hundred times the decimal of 28
    significant digits must be an integer. */
module Money {
  import opened Basics
  import opened Wrappers

  datatype MoneyError = NotADecimal | TooManyDecimals

  const PRECISION := 28

  // ---- text ----

  predicate IsDigit(c: char) {
    '0' <= c <= '9'
  }

  predicate AllDigits(s: string) {
    forall i :: 0 <= i < |s| ==> IsDigit(s[i])
  }

  function Remove(s: string, c: char): string {
    if s == [] then []
    else if s[|s| - 1] == c then Remove(s[..|s| - 1], c)
    else Remove(s[..|s| - 1], c) + [s[|s| - 1]]
  }

  function Replace(s: string, c: char, d: char): string {
    seq(|s|, i requires 0 <= i < |s| => if s[i] == c then d else s[i])
  }

  /** The place of the last `c`, or -1. */
  function RFind(s: string, c: char): (i: int)
    ensures -1 <= i < |s|
  {
    if s == [] then -1 else if s[|s| - 1] == c then |s| - 1 else RFind(s[..|s| - 1], c)
  }

  // ---- numbers ----

  function Pow10(n: nat): (p: nat)
    ensures p > 0
  {
    if n == 0 then 1 else 10 * Pow10(n - 1)
  }

  function Number(s: string): nat
    requires AllDigits(s)
  {
    if s == [] then 0 else 10 * Number(s[..|s| - 1]) + (s[|s| - 1] - '0') as int
  }

  function Digit(d: int): char
    requires 0 <= d < 10
  {
    '0' + d as char
  }

  function Digits(n: nat): (s: string)
    ensures s != []
  {
    if n < 10 then [Digit(n)] else Digits(n / 10) + [Digit(n % 10)]
  }

  // ---- `_normalize_money` ----

  function Normalize(value: string): string {
    if ',' in value && '.' in value then
      var decimal := if RFind(value, ',') > RFind(value, '.') then ',' else '.';
      var thousands := if decimal == ',' then '.' else ',';
      Replace(Remove(value, thousands), decimal, '.')
    else if ',' in value then NormalizeOne(value, ',')
    else if '.' in value then NormalizeOne(value, '.')
    else value
  }

  /** Only one kind of separator: three digits after it and at most three before it make a thousands
      group, anything else is a decimal part. */
  function NormalizeOne(value: string, separator: char): string {
    var i := RFind(value, separator);
    if i < 0 then value
    else
      var whole, fraction := value[..i], value[i + 1..];
      if |fraction| == 3 && |whole| <= 3 then Remove(value, separator)
      else Remove(whole, separator) + ['.'] + fraction
  }

  // ---- decimals ----

  /** `coefficient` over ten to the power of `places`. */
  datatype Decimal = Decimal(coefficient: nat, places: nat)

  function ParseDecimal(text: string): Option<Decimal> {
    var i := RFind(text, '.');
    if i < 0 then
      if AllDigits(text) && text != [] then Some(Decimal(Number(text), 0)) else None
    else
      var whole, fraction := text[..i], text[i + 1..];
      if AllDigits(whole) && AllDigits(fraction) && |whole| + |fraction| > 0
      then Some(Decimal(Number(whole + fraction), |fraction|))
      else None
  }

  /** `k / m` to the nearest integer, ties to even. */
  function RoundHalfEven(k: nat, m: nat): nat
    requires m > 0
  {
    var q, r := k / m, k % m;
    if 2 * r < m || (2 * r == m && q % 2 == 0) then q else q + 1
  }

  /** How many digits do not fit into the precision. */
  function Excess(k: nat): nat {
    if k < Pow10(PRECISION) then 0 else 1 + Excess(k / 10)
  }

  /** A coefficient rounded to 28 significant digits. */
  function Rounded(k: nat): nat {
    RoundHalfEven(k, Pow10(Excess(k))) * Pow10(Excess(k))
  }

  /** `_money_minor`: the decimal times one hundred, which must be an integer. */
  function MoneyMinor(value: string): Result<nat, MoneyError> {
    var parsed := ParseDecimal(Normalize(value));
    if parsed.None? then Failure(NotADecimal)
    else
      var minor := Rounded(100 * parsed.value.coefficient);
      var unit := Pow10(parsed.value.places);
      if minor % unit == 0 then Success(minor / unit) else Failure(TooManyDecimals)
  }

  // ---- writing amounts ----

  /** Digits with a separator before every group of three, counted from the right. */
  function Grouped(digits: string, separator: char): string {
    if |digits| <= 3 then digits
    else Grouped(digits[..|digits| - 3], separator) + [separator] + digits[|digits| - 3..]
  }

  datatype Style = DotGroups | CommaGroups | PlainComma | PlainDot

  function DecimalMark(style: Style): char {
    match style
    case DotGroups => ','
    case CommaGroups => '.'
    case PlainComma => ','
    case PlainDot => '.'
  }

  function Whole(w: nat, style: Style): string {
    match style
    case DotGroups => Grouped(Digits(w), '.')
    case CommaGroups => Grouped(Digits(w), ',')
    case PlainComma => Digits(w)
    case PlainDot => Digits(w)
  }

  /** `n` minor units with exactly two decimals. */
  function Write(n: nat, style: Style): string {
    Whole(n / 100, style) + [DecimalMark(style)] + [Digit(n % 100 / 10), Digit(n % 10)]
  }

  // ---- digits and numbers ----

  lemma {:induction false} DigitValue(d: int)
    requires 0 <= d < 10
    ensures IsDigit(Digit(d)) && (Digit(d) - '0') as int == d
  {}

  lemma {:induction false} NumberOfDigits(n: nat)
    ensures AllDigits(Digits(n)) && Number(Digits(n)) == n
  {
    if n < 10 {
      DigitValue(n);
      assert Digits(n)[..0] == [];
    } else {
      NumberOfDigits(n / 10);
      DigitValue(n % 10);
      assert Digits(n)[..|Digits(n)| - 1] == Digits(n / 10);
    }
  }

  lemma {:induction false} DigitsMany(n: nat)
    ensures n >= 1_000_000 ==> |Digits(n)| >= 7
    ensures n < 1_000_000 ==> |Digits(n)| <= 6
  {
    var a, b, c := n / 10, n / 100, n / 1_000;
    assert a / 10 == b && b / 10 == c;
    var d, e, f := c / 10, c / 100, c / 1_000;
    assert d / 10 == e && e / 10 == f;
    assert |Digits(f)| >= 1;
    assert n >= 1_000_000 ==> f >= 1;
    DigitsGrow(n);
    DigitsGrow(a);
    DigitsGrow(b);
    DigitsGrow(c);
    DigitsGrow(d);
    DigitsGrow(e);
  }

  lemma {:induction false} DigitsGrow(n: nat)
    ensures |Digits(n)| == if n < 10 then 1 else |Digits(n / 10)| + 1
  {}

  lemma {:induction false} NumberConcat(a: string, b: string)
    requires AllDigits(a) && AllDigits(b)
    ensures AllDigits(a + b) && Number(a + b) == Number(a) * Pow10(|b|) + Number(b)
    decreases |b|
  {
    if b == [] {
      assert a + b == a;
    } else {
      var front := b[..|b| - 1];
      assert (a + b)[..|a + b| - 1] == a + front;
      NumberConcat(a, front);
      assert Pow10(|b|) == 10 * Pow10(|front|);
      Shift(Number(a), Pow10(|front|));
    }
  }

  lemma {:induction false} Shift(a: nat, p: nat)
    ensures 10 * (a * p) == a * (10 * p)
  {}

  lemma {:induction false} OneDigit(x: int)
    requires 0 <= x < 10
    ensures AllDigits([Digit(x)]) && Number([Digit(x)]) == x
  {
    DigitValue(x);
    assert [Digit(x)][..0] == [];
  }

  lemma {:induction false} TwoDigits(x: int, y: int)
    requires 0 <= x < 10 && 0 <= y < 10
    ensures AllDigits([Digit(x), Digit(y)]) && Number([Digit(x), Digit(y)]) == 10 * x + y
  {
    DigitValue(x);
    DigitValue(y);
    OneDigit(x);
    var s := [Digit(x), Digit(y)];
    assert s[..1] == [Digit(x)];
  }

  // ---- text around separators ----

  predicate Separator(c: char) {
    c == ',' || c == '.'
  }

  lemma {:induction false} NoSeparators(s: string, c: char)
    requires AllDigits(s) && Separator(c)
    ensures c !in s && Remove(s, c) == s && RFind(s, c) == -1
    decreases |s|
  {
    if s != [] {
      NoSeparators(s[..|s| - 1], c);
      assert s == s[..|s| - 1] + [s[|s| - 1]];
    }
  }

  lemma {:induction false} RemoveConcat(a: string, b: string, c: char)
    ensures Remove(a + b, c) == Remove(a, c) + Remove(b, c)
    decreases |b|
  {
    if b == [] {
      assert a + b == a;
    } else {
      assert (a + b)[..|a + b| - 1] == a + b[..|b| - 1];
      RemoveConcat(a, b[..|b| - 1], c);
    }
  }

  lemma {:induction false} RFindBehind(a: string, c: char, b: string)
    requires c !in b
    ensures RFind(a + [c] + b, c) == |a|
    decreases |b|
  {
    var s := a + [c] + b;
    if b != [] {
      assert s[..|s| - 1] == a + [c] + b[..|b| - 1];
      RFindBehind(a, c, b[..|b| - 1]);
    }
  }

  lemma {:induction false} RFindFront(a: string, c: char, b: string)
    requires c !in b
    ensures RFind(a + b, c) == RFind(a, c)
    decreases |b|
  {
    if b == [] {
      assert a + b == a;
    } else {
      assert (a + b)[..|a + b| - 1] == a + b[..|b| - 1];
      RFindFront(a, c, b[..|b| - 1]);
    }
  }

  lemma {:induction false} RemoveItself(c: char)
    ensures Remove([c], c) == []
  {}

  lemma {:induction false} GroupedText(digits: string, c: char)
    requires AllDigits(digits) && Separator(c)
    ensures Remove(Grouped(digits, c), c) == digits
    ensures c in Grouped(digits, c) <==> |digits| > 3
    ensures forall x :: x in Grouped(digits, c) ==> x == c || IsDigit(x)
    ensures |Grouped(digits, c)| >= |digits|
    decreases |digits|
  {
    hide Remove;
    if |digits| <= 3 {
      NoSeparators(digits, c);
    } else {
      var front, last := digits[..|digits| - 3], digits[|digits| - 3..];
      GroupedText(front, c);
      NoSeparators(last, c);
      RemoveConcat(Grouped(front, c) + [c], last, c);
      RemoveConcat(Grouped(front, c), [c], c);
      RemoveItself(c);
      assert digits == front + last;
      assert Grouped(digits, c)[|Grouped(front, c)|] == c;
    }
  }

  lemma {:induction false} ReplaceOne(a: string, c: char, b: string)
    requires c !in a && c !in b
    ensures Replace(a + [c] + b, c, '.') == a + ['.'] + b
  {
    var s, t := a + [c] + b, a + ['.'] + b;
    forall i | 0 <= i < |s| ensures Replace(s, c, '.')[i] == t[i] {
      assert i < |a| ==> s[i] == a[i];
      assert i > |a| ==> s[i] == b[i - |a| - 1];
    }
  }

  // ---- amounts with decimals ----

  /** `whole` is `digits`, possibly with thousands separators. */
  ghost predicate Written(whole: string, other: char, digits: string) {
    && AllDigits(digits) && Remove(whole, other) == digits
    && forall x :: x in whole ==> x == other || IsDigit(x)
  }

  lemma {:induction false} MarkIsLast(whole: string, mark: char, other: char, fraction: string)
    requires Separator(mark) && Separator(other) && mark != other && other in whole && AllDigits(fraction)
    ensures var v := whole + [mark] + fraction;
      mark in v && other in v && RFind(v, mark) > RFind(v, other)
  {
    var v := whole + [mark] + fraction;
    NoSeparators(fraction, mark);
    NoSeparators(fraction, other);
    RFindBehind(whole, mark, fraction);
    assert v == whole + ([mark] + fraction);
    RFindFront(whole, other, [mark] + fraction);
    assert v[|whole|] == mark;
    var i :| 0 <= i < |whole| && whole[i] == other;
    assert v[i] == other;
  }

  lemma {:induction false} DropGroups(whole: string, mark: char, other: char, digits: string, fraction: string)
    requires Separator(mark) && Separator(other) && mark != other && Written(whole, other, digits)
    requires AllDigits(fraction)
    ensures Replace(Remove(whole + [mark] + fraction, other), mark, '.') == digits + ['.'] + fraction
  {
    NoSeparators(fraction, mark);
    NoSeparators(fraction, other);
    RemoveConcat(whole + [mark], fraction, other);
    RemoveConcat(whole, [mark], other);
    OneChar(mark, other);
    NoSeparators(digits, mark);
    ReplaceOne(digits, mark, fraction);
  }

  lemma {:induction false} NormalizeBoth(whole: string, mark: char, other: char, digits: string, fraction: string)
    requires Separator(mark) && Separator(other) && mark != other && Written(whole, other, digits) && other in whole
    requires AllDigits(fraction)
    ensures Normalize(whole + [mark] + fraction) == digits + ['.'] + fraction
  {
    hide RFind, Remove, Replace, NormalizeOne;
    MarkIsLast(whole, mark, other, fraction);
    DropGroups(whole, mark, other, digits, fraction);
  }

  lemma {:induction false} OneChar(c: char, other: char)
    requires c != other
    ensures Remove([c], other) == [c]
  {
    assert [c][..0] == [];
  }

  lemma {:induction false} NormalizeMark(whole: string, mark: char, fraction: string)
    requires Separator(mark) && AllDigits(whole) && AllDigits(fraction) && 1 <= |fraction| <= 2
    ensures Normalize(whole + [mark] + fraction) == whole + ['.'] + fraction
  {
    var v := whole + [mark] + fraction;
    var other := if mark == ',' then '.' else ',';
    NoSeparators(whole, mark);
    NoSeparators(whole, other);
    NoSeparators(fraction, mark);
    NoSeparators(fraction, other);
    assert v[|whole|] == mark && other !in v;
    RFindBehind(whole, mark, fraction);
    hide Normalize, RFind, Remove, AllDigits;
    NormalizeSingle(v, mark, other);
    assert v[..|whole|] == whole && v[|whole| + 1..] == fraction;
  }

  lemma {:induction false} NormalizeSingle(v: string, mark: char, other: char)
    requires Separator(mark) && Separator(other) && mark != other && mark in v && other !in v
    ensures Normalize(v) == NormalizeOne(v, mark)
  {
    hide NormalizeOne;
  }

  lemma {:induction false} NormalizeWritten(whole: string, mark: char, other: char, digits: string, fraction: string)
    requires Separator(mark) && Separator(other) && mark != other && Written(whole, other, digits)
    requires AllDigits(fraction) && 1 <= |fraction| <= 2
    ensures Normalize(whole + [mark] + fraction) == digits + ['.'] + fraction
  {
    if other in whole {
      NormalizeBoth(whole, mark, other, digits, fraction);
    } else {
      RemoveAbsent(whole, other);
      NormalizeMark(whole, mark, fraction);
    }
  }

  lemma {:induction false} RemoveAbsent(s: string, c: char)
    requires c !in s
    ensures Remove(s, c) == s
    decreases |s|
  {
    if s != [] {
      RemoveAbsent(s[..|s| - 1], c);
    }
  }

  lemma {:induction false} ParseWritten(digits: string, fraction: string)
    requires AllDigits(digits) && AllDigits(fraction) && digits != []
    ensures ParseDecimal(digits + ['.'] + fraction) == Some(Decimal(Number(digits + fraction), |fraction|))
  {
    var text := digits + ['.'] + fraction;
    NoSeparators(fraction, '.');
    RFindBehind(digits, '.', fraction);
    assert text[..|digits|] == digits && text[|digits| + 1..] == fraction;
  }

  // ---- rounding ----

  lemma {:induction false} RoundTen(k: nat, m: nat)
    requires m > 0
    ensures RoundHalfEven(10 * k, 10 * m) == RoundHalfEven(k, m)
  {
    var q, r := k / m, k % m;
    assert k == q * m + r;
    assert 10 * k == q * (10 * m) + 10 * r;
    DivUnique(10 * k, 10 * m, q, 10 * r);
  }

  lemma {:induction false} RoundOne(k: nat)
    ensures RoundHalfEven(k, 1) == k
  {}

  lemma {:induction false} Exact(k: nat)
    requires k < Pow10(PRECISION)
    ensures Excess(k) == 0 && Rounded(k) == k
  {
    hide Pow10;
    RoundOne(k);
    PowZero();
  }

  lemma {:induction false} PowZero()
    ensures Pow10(0) == 1
  {}

  lemma {:induction false} PowStep(n: nat)
    ensures Pow10(n + 1) == 10 * Pow10(n)
  {}

  lemma {:induction false} Regroup(x: nat, p: nat)
    ensures x * (10 * p) == 10 * (x * p)
  {}

  /** A trailing zero more makes no difference to rounding. */
  lemma {:induction false} RoundedTen(k: nat)
    ensures Rounded(10 * k) == 10 * Rounded(k)
  {
    hide Pow10, RoundHalfEven;
    if 10 * k < Pow10(PRECISION) {
      Exact(10 * k);
      Exact(k);
    } else {
      assert Excess(10 * k) == Excess(k) + 1;
      PowStep(Excess(k));
      RoundTen(k, Pow10(Excess(k)));
      Regroup(RoundHalfEven(k, Pow10(Excess(k))), Pow10(Excess(k)));
    }
  }

  lemma {:induction false} RoundedHundred(k: nat)
    ensures Rounded(100 * k) == 100 * Rounded(k)
  {
    hide Rounded;
    RoundedTen(k);
    RoundedTen(10 * k);
  }

  /** A number keeps its value exactly when the digits that do not fit are zeros. */
  lemma {:induction false} RoundedIsExact(n: nat)
    ensures Rounded(n) == n <==> n % Pow10(Excess(n)) == 0
    ensures n < Pow10(PRECISION) ==> Rounded(n) == n
  {
    hide Pow10, Excess;
    var m := Pow10(Excess(n));
    var q, r := n / m, n % m;
    assert n == q * m + r;
    if r != 0 {
      assert (q + 1) * m == q * m + m;
    }
    if n < Pow10(PRECISION) {
      Exact(n);
    }
  }

  // ---- what parsing gives ----

  /** An amount with one or two decimals: its minor units, rounded to 28 significant digits. */
  lemma {:induction false} DecimalAmount(whole: string, mark: char, other: char, digits: string, fraction: string)
    requires Separator(mark) && Separator(other) && mark != other && Written(whole, other, digits) && digits != []
    requires AllDigits(fraction) && 1 <= |fraction| <= 2
    ensures MoneyMinor(whole + [mark] + fraction) ==
      Success(Rounded(100 * Number(digits) + if |fraction| == 1 then 10 * Number(fraction) else Number(fraction)))
  {
    hide Rounded, Number, Normalize, ParseDecimal, Pow10;
    NormalizeWritten(whole, mark, other, digits, fraction);
    ParseWritten(digits, fraction);
    NumberConcat(digits, fraction);
    PowZero();
    PowStep(0);
    PowStep(1);
    var c := Number(digits + fraction);
    RoundedTen(c);
    RoundedTen(10 * c);
    if |fraction| == 1 {
      assert Number(digits) * 10 * 10 == 100 * Number(digits);
      DivUnique(Rounded(100 * c), 10, Rounded(10 * c), 0);
    } else {
      DivUnique(Rounded(100 * c), 100, Rounded(c), 0);
    }
  }

  lemma {:induction false} WholeIsWritten(w: nat, style: Style)
    ensures var mark := DecimalMark(style);
      Written(Whole(w, style), if mark == ',' then '.' else ',', Digits(w))
  {
    NumberOfDigits(w);
    GroupedText(Digits(w), ',');
    GroupedText(Digits(w), '.');
    NoSeparators(Digits(w), ',');
    NoSeparators(Digits(w), '.');
  }

  lemma {:induction false} SplitMinor(n: nat)
    ensures n == 100 * (n / 100) + (10 * (n % 100 / 10) + n % 10)
  {
    var whole, r := n / 100, n % 100;
    DivUnique(n, 10, 10 * whole + r / 10, r % 10);
  }

  /** Round trip: minor units written with two decimals, in any of the four styles, are read back without
      an error, and to the same number exactly when the digits beyond the 28th are zeros, so always below
      ten to the power of 28. */
  lemma {:induction false} RoundTrip(n: nat, style: Style)
    ensures MoneyMinor(Write(n, style)).Success?
    ensures MoneyMinor(Write(n, style)) == Success(n) <==> n % Pow10(Excess(n)) == 0
    ensures n < 10_000_000_000_000_000_000_000_000_000 ==> MoneyMinor(Write(n, style)) == Success(n)
  {
    hide Rounded, Pow10, MoneyMinor, Number, Whole, Digits;
    var w, x, y := n / 100, n % 100 / 10, n % 10;
    var mark := DecimalMark(style);
    WholeIsWritten(w, style);
    NumberOfDigits(w);
    TwoDigits(x, y);
    DecimalAmount(Whole(w, style), mark, if mark == ',' then '.' else ',', Digits(w), [Digit(x), Digit(y)]);
    SplitMinor(n);
    RoundedIsExact(n);
    PrecisionValue();
  }

  // ---- amounts without decimals ----

  lemma {:induction false} ParseDigits(digits: string)
    requires AllDigits(digits) && digits != []
    ensures ParseDecimal(digits) == Some(Decimal(Number(digits), 0))
    ensures Normalize(digits) == digits
  {
    NoSeparators(digits, '.');
    NoSeparators(digits, ',');
  }

  lemma {:induction false} OneSeparator(a: string, c: char, b: string)
    requires Separator(c) && AllDigits(b) && forall x :: x in a ==> x == c || IsDigit(x)
    ensures var v := a + [c] + b;
      Normalize(v) == if |b| == 3 && |a| <= 3 then Remove(v, c) else Remove(a, c) + ['.'] + b
  {
    var v := a + [c] + b;
    var other := if c == ',' then '.' else ',';
    NoSeparators(b, c);
    NoSeparators(b, other);
    assert v[|a|] == c && other !in v;
    RFindBehind(a, c, b);
    assert v[..|a|] == a && v[|a| + 1..] == b;
  }

  /** One thousands group, with or without leading zeros: the separator is dropped. */
  lemma {:induction false} SmallGroups(digits: string, c: char)
    requires Separator(c) && AllDigits(digits) && 1 <= |digits| <= 6
    ensures MoneyMinor(Grouped(digits, c)) == Success(Rounded(100 * Number(digits)))
  {
    hide Rounded, Number, Normalize, ParseDecimal, RFind, Remove;
    ParseDigits(digits);
    PowZero();
    if |digits| > 3 {
      var front, last := digits[..|digits| - 3], digits[|digits| - 3..];
      GroupedText(digits, c);
      NoSeparators(front, c);
      assert forall x :: x in front ==> IsDigit(x);
      OneSeparator(front, c, last);
    }
  }

  /** Two or more groups: the last one is taken for decimals. */
  lemma {:induction false} LargeGroups(digits: string, c: char)
    requires Separator(c) && AllDigits(digits) && |digits| >= 7
    ensures MoneyMinor(Grouped(digits, c)) ==
      if Rounded(Number(digits)) % 10 == 0 then Success(Rounded(Number(digits)) / 10) else Failure(TooManyDecimals)
  {
    hide Rounded, Number, Normalize, ParseDecimal, RFind, Remove, Pow10;
    var w := Number(digits);
    var front, last := digits[..|digits| - 3], digits[|digits| - 3..];
    GroupedText(front, c);
    assert |Grouped(front, c)| > 3;
    OneSeparator(Grouped(front, c), c, last);
    assert front + last == digits;
    ParseWritten(front, last);
    RoundedHundred(w);
    Thousand();
    Scale(Rounded(w));
  }

  lemma {:induction false} Thousand()
    ensures Pow10(3) == 1_000
  {
    PowZero();
    PowStep(0);
    PowStep(1);
    PowStep(2);
  }

  lemma {:induction false} Scale(r: nat)
    ensures (100 * r) % 1_000 == 0 <==> r % 10 == 0
    ensures r % 10 == 0 ==> (100 * r) / 1_000 == r / 10
  {}

  lemma {:induction false} ExcessBound(k: nat)
    requires k >= Pow10(PRECISION)
    ensures Pow10(Excess(k)) <= k
    decreases k
  {
    hide Pow10;
    PowStep(Excess(k / 10));
    PrecisionIsLarge();
    if k / 10 >= Pow10(PRECISION) {
      ExcessBound(k / 10);
    } else {
      PowZero();
    }
  }

  lemma {:induction false} PrecisionIsLarge()
    ensures Pow10(PRECISION) >= 10
  {
    PowStep(PRECISION - 1);
  }

  lemma {:induction false} RoundingBound(k: nat, m: nat)
    requires 0 < m <= k
    ensures RoundHalfEven(k, m) * m <= 2 * k
  {
    var q := k / m;
    assert k == q * m + k % m;
    assert (q + 1) * m == q * m + m;
  }

  lemma {:induction false} RoundedBound(k: nat)
    ensures Rounded(k) <= 2 * k
  {
    hide Pow10, RoundHalfEven;
    if k < Pow10(PRECISION) {
      Exact(k);
    } else {
      ExcessBound(k);
      RoundingBound(k, Pow10(Excess(k)));
    }
  }

  /** An amount with thousands separators and no decimals is read correctly exactly below one million.
      From there on the last group is taken for decimals: the amount is rejected, or, when that group
      ends in a zero, silently read as a thousandth of itself. */
  lemma {:induction false} GroupedWholeAmounts(w: nat, c: char)
    requires Separator(c)
    ensures MoneyMinor(Grouped(Digits(w), c)) == Success(100 * w) <==> w < 1_000_000
    ensures 1_000_000 <= w < 10_000_000_000_000_000_000_000_000_000 ==>
      MoneyMinor(Grouped(Digits(w), c)) == if w % 10 == 0 then Success(w / 10) else Failure(TooManyDecimals)
  {
    hide Rounded, Pow10, MoneyMinor, Digits, Grouped;
    NumberOfDigits(w);
    DigitsMany(w);
    PrecisionValue();
    if w < 1_000_000 {
      SmallGroups(Digits(w), c);
      MillionsFit();
      Exact(100 * w);
    } else {
      LargeGroups(Digits(w), c);
      RoundedBound(w);
      if w < Pow10(PRECISION) {
        Exact(w);
      }
    }
  }

  lemma {:induction false} MillionsFit()
    ensures Pow10(PRECISION) >= 100_000_000
  {
    PowGrows(8, 20);
    PowValues();
  }

  lemma {:induction false} PowValues()
    ensures Pow10(8) == 100_000_000
  {
    Thousand();
    PowStep(3);
    PowStep(4);
    PowStep(5);
    PowStep(6);
    PowStep(7);
  }

  lemma {:induction false} PowGrows(a: nat, more: nat)
    ensures Pow10(a + more) >= Pow10(a)
    decreases more
  {
    if more > 0 {
      PowGrows(a, more - 1);
      PowStep(a + more - 1);
    }
  }

  /** An amount of digits alone, with or without leading zeros. */
  lemma {:induction false} PlainDigits(digits: string)
    requires AllDigits(digits) && digits != []
    ensures MoneyMinor(digits) == Success(100 * Rounded(Number(digits)))
  {
    hide Rounded, Number, Normalize, ParseDecimal;
    ParseDigits(digits);
    RoundedHundred(Number(digits));
    PowZero();
  }

  lemma {:induction false} PlainWholeAmounts(w: nat)
    ensures MoneyMinor(Digits(w)) == Success(100 * Rounded(w))
  {
    hide MoneyMinor, Rounded, Number, Digits;
    NumberOfDigits(w);
    PlainDigits(Digits(w));
  }

  // ---- what is no amount ----

  ghost predicate All(s: string, c: char) {
    forall i :: 0 <= i < |s| ==> s[i] == c
  }

  lemma {:induction false} RemoveAll(s: string, c: char)
    requires All(s, c)
    ensures Remove(s, c) == []
    decreases |s|
  {
    if s != [] {
      RemoveAll(s[..|s| - 1], c);
    }
  }

  lemma {:induction false} RemoveLeaves(s: string, c: char, d: char)
    requires c != d && forall i :: 0 <= i < |s| ==> s[i] == c || s[i] == d
    ensures All(Remove(s, c), d) && (d in s ==> Remove(s, c) != [])
    decreases |s|
  {
    if s != [] {
      RemoveLeaves(s[..|s| - 1], c, d);
      assert s == s[..|s| - 1] + [s[|s| - 1]];
    }
  }

  lemma {:induction false} PointsAreNoDecimal(s: string)
    requires All(s, '.')
    ensures ParseDecimal(s) == None
  {
    if |s| > 1 {
      assert !IsDigit(s[..|s| - 1][0]);
    }
  }

  /** Without a digit there is no amount, in any mixture of separators. */
  lemma {:induction false} SeparatorsAreNoAmount(value: string)
    requires forall i :: 0 <= i < |value| ==> Separator(value[i])
    ensures MoneyMinor(value) == Failure(NotADecimal)
  {
    hide Remove, ParseDecimal, Rounded, Replace;
    if ',' in value && '.' in value {
      RemoveLeaves(value, ',', '.');
      RemoveLeaves(value, '.', ',');
      PointsReplaced(Remove(value, '.'), ',');
      PointsReplaced(Remove(value, ','), '.');
    } else if value != [] {
      OnlyOne(value);
    }
    PointsAreNoDecimal(Normalize(value));
  }

  lemma {:induction false} PointsReplaced(s: string, c: char)
    requires All(s, c)
    ensures All(Replace(s, c, '.'), '.')
  {}

  lemma {:induction false} OnlyOne(value: string)
    requires value != [] && (forall i :: 0 <= i < |value| ==> Separator(value[i]))
    requires !(',' in value && '.' in value)
    ensures Normalize(value) == "."
  {
    var c := value[|value| - 1];
    assert c in value && All(value, c);
    RemoveAll(value[..|value| - 1], c);
  }

  // ---- what rounding to 28 significant digits means ----

  /** The nearest multiple, and the even one of two that are equally near. */
  lemma {:induction false} NearestEven(k: nat, m: nat)
    requires m > 0
    ensures var r := RoundHalfEven(k, m);
      && 2 * (r * m - k) <= m && 2 * (k - r * m) <= m
      && (2 * (r * m - k) == m || 2 * (k - r * m) == m ==> r % 2 == 0)
  {
    var q, r := k / m, k % m;
    assert k == q * m + r;
    assert (q + 1) * m == q * m + m;
  }

  lemma {:induction false} PrecisionValue()
    ensures Pow10(PRECISION) == 10_000_000_000_000_000_000_000_000_000
  {
    hide Pow10;
    PowValues();
    PowStep(8);
    PowStep(9);
    PowStep(10);
    PowStep(11);
    PowStep(12);
    PowStep(13);
    PowStep(14);
    PowStep(15);
    PowStep(16);
    PowStep(17);
    PowStep(18);
    PowStep(19);
    PowStep(20);
    PowStep(21);
    PowStep(22);
    PowStep(23);
    PowStep(24);
    PowStep(25);
    PowStep(26);
    PowStep(27);
  }

  lemma {:induction false} QuotientTwice(k: nat, m: nat)
    requires m > 0
    ensures k / 10 / m == k / (10 * m)
  {
    var a, b := k / 10, k % 10;
    var q, r := a / m, a % m;
    assert k == 10 * a + b && a == q * m + r;
    assert k == q * (10 * m) + (10 * r + b);
    assert 10 * r + b < 10 * m;
    DivUnique(k, 10 * m, q, 10 * r + b);
  }

  /** The digits beyond the 28th: the fewest whose removal leaves at most 28. */
  lemma {:induction false} ExcessIsLeast(k: nat, e: nat)
    ensures e >= Excess(k) <==> k / Pow10(e) < Pow10(PRECISION)
    decreases k
  {
    hide Pow10;
    PowZero();
    PrecisionIsLarge();
    if k < Pow10(PRECISION) {
      SmallQuotient(k, Pow10(e));
    } else if e > 0 {
      ExcessIsLeast(k / 10, e - 1);
      PowStep(e - 1);
      QuotientTwice(k, Pow10(e - 1));
    }
  }

  lemma {:induction false} SmallQuotient(k: nat, m: nat)
    requires m > 0
    ensures k / m <= k
  {
    if k / m > k {
      assert k == (k / m) * m + k % m;
      AtLeastOnce(k / m, m);
    }
  }

  lemma {:induction false} AtLeastOnce(x: nat, m: nat)
    requires m > 0
    ensures x * m >= x
  {}

  /** Every amount is rounded to the nearest number of 28 significant digits, to an even last digit halfway. */
  lemma {:induction false} RoundedIsNearest(k: nat)
    ensures var e, r := Excess(k), Rounded(k);
      && (k < 10_000_000_000_000_000_000_000_000_000 ==> r == k)
      && k / Pow10(e) < 10_000_000_000_000_000_000_000_000_000
      && (e > 0 ==> k / Pow10(e - 1) >= 10_000_000_000_000_000_000_000_000_000)
      && exists n: nat :: r == n * Pow10(e) && 2 * (r - k) <= Pow10(e) && 2 * (k - r) <= Pow10(e)
           && (2 * (r - k) == Pow10(e) || 2 * (k - r) == Pow10(e) ==> n % 2 == 0)
  {
    hide Pow10, Excess, RoundHalfEven;
    var e := Excess(k);
    PrecisionValue();
    ExcessIsLeast(k, e);
    if e > 0 {
      ExcessIsLeast(k, e - 1);
    }
    if k < Pow10(PRECISION) {
      Exact(k);
    }
    NearestEven(k, Pow10(e));
    var n := RoundHalfEven(k, Pow10(e));
    assert Rounded(k) == n * Pow10(e);
  }
}

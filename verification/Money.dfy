/**
 Fixed-point money: a signed 64-bit number of cents and a currency code.

 The machine integers are newtypes, so verification also shows that no intermediate
 expression of the arithmetic, of the parser or of the printer wraps around.
 */
module MoneyValue {
  import opened Results

  newtype int64 = x: int | -0x8000_0000_0000_0000 <= x <= 0x7fff_ffff_ffff_ffff
  newtype uint64 = x: int | 0 <= x <= 0xffff_ffff_ffff_ffff

  const MAX_INT64: int64 := 0x7fff_ffff_ffff_ffff
  const MIN_INT64: int64 := -0x8000_0000_0000_0000
  const MAX_UINT64: int := 0xffff_ffff_ffff_ffff

  const BRL := "BRL"

  datatype MoneyError =
    | InvalidMoney
    | CurrencyMismatch
    | NegativeExternal
    | Overflow
    | ScaleExceeded
    | ScientificNotation
    | UnsupportedCurrency

  datatype Money = Money(amount: int64, currency: string)

  predicate FitsInt64(x: int) {
    MIN_INT64 as int <= x <= MAX_INT64 as int
  }

  predicate ValidCurrency(currency: string) {
    currency == BRL
  }

  function NewMoney(amount: int64, currency: string): (r: Result<Money, MoneyError>) {
    if ValidCurrency(currency) then Success(Money(amount, currency)) else Failure(UnsupportedCurrency)
  }

  /** A value that the JSON encoder accepts: supported currency, not negative. */
  predicate Presentable(m: Money) {
    ValidCurrency(m.currency) && m.amount >= 0
  }

  // ---------------------------------------------------------------- arithmetic

  function Add(m: Money, other: Money): (r: Result<Money, MoneyError>)
    ensures r.Success? <==> m.currency == other.currency && FitsInt64(m.amount as int + other.amount as int)
    ensures r.Success? ==>
              r.value.currency == m.currency && r.value.amount as int == m.amount as int + other.amount as int
    ensures r.Failure? ==> r.error == if m.currency != other.currency then CurrencyMismatch else Overflow
  {
    if m.currency != other.currency then
      Failure(CurrencyMismatch)
    else if other.amount > 0 && m.amount > MAX_INT64 - other.amount then
      Failure(Overflow)
    else if other.amount < 0 && m.amount < MIN_INT64 - other.amount then
      Failure(Overflow)
    else
      Success(Money(m.amount + other.amount, m.currency))
  }

  function Subtract(m: Money, other: Money): (r: Result<Money, MoneyError>)
    ensures r.Success? <==>
            && m.currency == other.currency
            && FitsInt64(m.amount as int - other.amount as int)
            && other.amount != MIN_INT64
    ensures r.Success? ==>
              r.value.currency == m.currency && r.value.amount as int == m.amount as int - other.amount as int
    ensures r.Failure? ==> r.error == if m.currency != other.currency then CurrencyMismatch else Overflow
  {
    if m.currency != other.currency then
      Failure(CurrencyMismatch)
    else if other.amount == MIN_INT64 then
      Failure(Overflow)
    else
      Add(m, Money(-other.amount, other.currency))
  }

  function Negate(m: Money): (r: Result<Money, MoneyError>)
    ensures r.Success? <==> FitsInt64(-(m.amount as int))
    ensures r.Success? ==> Add(m, r.value) == Success(Money(0, m.currency))
  {
    if m.amount == MIN_INT64 then Failure(Overflow) else Success(Money(-m.amount, m.currency))
  }

  function Compare(m: Money, other: Money): (r: Result<int, MoneyError>)
    ensures r.Success? <==> m.currency == other.currency
    ensures r.Success? ==> (r.value == 0 <==> m == other) && (r.value < 0 <==> m.amount < other.amount)
  {
    if m.currency != other.currency then Failure(CurrencyMismatch)
    else if m.amount < other.amount then Success(-1)
    else if m.amount > other.amount then Success(1)
    else Success(0)
  }

  // ---------------------------------------------------------------- decimal notation

  predicate Digit(c: char) {
    '0' <= c <= '9'
  }

  /** One or more decimal digits. */
  predicate Digits(s: string) {
    s != [] && forall i :: 0 <= i < |s| ==> Digit(s[i])
  }

  function DigitValue(c: char): (v: int)
    requires Digit(c)
    ensures 0 <= v <= 9
  {
    c as int - '0' as int
  }

  /** The number that a digit string denotes, most significant digit first. */
  function Number(s: string): (n: nat)
    requires forall i :: 0 <= i < |s| ==> Digit(s[i])
  {
    if s == [] then 0 else 10 * Number(s[..|s| - 1]) + DigitValue(s[|s| - 1])
  }

  /** `whole` or `whole.minor`, where minor has one or two digits. */
  ghost predicate Decimal(s: string, whole: string, minor: string) {
    && Digits(whole)
    && (minor == [] ==> s == whole)
    && (minor != [] ==> Digits(minor) && |minor| <= 2 && s == whole + "." + minor)
  }

  /** The number of cents that a decimal denotes. */
  function Cents(whole: string, minor: string): nat
    requires Digits(whole) && (minor != [] ==> Digits(minor))
  {
    100 * Number(whole) + (if |minor| == 1 then 10 * Number(minor) else Number(minor))
  }

  predicate Space(c: char) {
    || '\U{0009}' <= c <= '\U{000D}' || c == ' ' || c == '\U{0085}' || c == '\U{00A0}' || c == '\U{1680}'
    || '\U{2000}' <= c <= '\U{200A}' || c == '\U{2028}' || c == '\U{2029}' || c == '\U{202F}'
    || c == '\U{205F}' || c == '\U{3000}'
  }

  /** True when trimming white space from both ends would change the text. */
  predicate Padded(s: string) {
    s != [] && (Space(s[0]) || Space(s[|s| - 1]))
  }

  predicate ContainsAny(s: string, chars: string) {
    exists i :: 0 <= i < |s| && s[i] in chars
  }

  predicate ForbiddenNotation(s: string) {
    s in ["NaN", "Inf", "Infinity", "INF", "INFINITY"] || ContainsAny(s, "eE+")
  }

  /** The pieces of s between its dots. */
  function SplitDots(s: string): (parts: seq<string>)
    ensures |parts| >= 1
    ensures forall k :: 0 <= k < |parts| ==> '.' !in parts[k]
  {
    if s == [] then [[]]
    else
      var rest := SplitDots(s[1..]);
      if s[0] == '.' then [[]] + rest
      else [[s[0]] + rest[0]] + rest[1..]
  }

  /** The length of s in bytes, as the source measures texts. */
  function ByteLength(s: string): (n: nat)
    ensures n >= |s| && ((forall i :: 0 <= i < |s| ==> Digit(s[i])) ==> n == |s|)
  {
    if s == [] then 0
    else
      var c := s[|s| - 1] as int;
      ByteLength(s[..|s| - 1]) + if c < 0x80 then 1 else if c < 0x800 then 2 else if c < 0x10000 then 3 else 4
  }

  /** ParseMoney as a function of its arguments, with the source's order of error checks. */
  function Parse(input: string, currency: string): (r: Result<Money, MoneyError>) {
    if !ValidCurrency(currency) then Failure(UnsupportedCurrency)
    else if input == [] || Padded(input) then Failure(InvalidMoney)
    else if ForbiddenNotation(input) then Failure(ScientificNotation)
    else if ContainsAny(input, ", ") || ContainsAny(input, "\t\r\n") then Failure(InvalidMoney)
    else if input[0] == '-' then Failure(NegativeExternal)
    else
      var parts := SplitDots(input);
      if |parts| > 2 || !Digits(parts[0]) then Failure(InvalidMoney)
      else if Number(parts[0]) > MAX_UINT64 then Failure(Overflow)
      else if |parts| == 2 && parts[1] == [] then Failure(InvalidMoney)
      else if |parts| == 2 && ByteLength(parts[1]) > 2 then Failure(ScaleExceeded)
      else if |parts| == 2 && !Digits(parts[1]) then Failure(InvalidMoney)
      else
        var minor := if |parts| == 1 then [] else parts[1];
        var cents := Cents(parts[0], minor);
        if cents <= MAX_INT64 as int then Success(Money(cents as int64, currency)) else Failure(Overflow)
  }

  method IsDigits(value: string) returns (ok: bool)
    ensures ok <==> Digits(value)
  {
    if value == [] { return false; }
    for i := 0 to |value|
      invariant forall j :: 0 <= j < i ==> Digit(value[j])
    {
      if value[i] < '0' || value[i] > '9' { return false; }
    }
    return true;
  }

  /** strconv.ParseUint(value, 10, 64) on a digit string: the value, or nothing if it does not fit. */
  method ParseUint(value: string) returns (r: Option<uint64>)
    requires Digits(value)
    ensures r.Some? <==> Number(value) <= MAX_UINT64
    ensures r.Some? ==> r.value as int == Number(value)
  {
    var n: uint64 := 0;
    for i := 0 to |value|
      invariant n as int == Number(value[..i])
    {
      assert value[..i + 1][..i] == value[..i];
      assert Number(value[..i + 1]) == 10 * (n as int) + DigitValue(value[i]);
      NumberMonotone(value, i + 1);
      var d := DigitValue(value[i]);
      if (n as int) > (MAX_UINT64 - d) / 10 {
        return None;
      }
      n := n * 10 + d as uint64;
    }
    assert value[..|value|] == value;
    return Some(n);
  }

  lemma {:induction false} NumberMonotone(s: string, k: nat)
    requires Digits(s) && k <= |s|
    ensures Number(s[..k]) <= Number(s)
    decreases |s| - k
  {
    if k == |s| {
      assert s[..k] == s;
    } else {
      assert s[..k + 1][..k] == s[..k];
      NumberMonotone(s, k + 1);
    }
  }

  lemma TwoDigitsSmall(s: string)
    requires Digits(s) && |s| <= 2
    ensures Number(s) <= 99
    ensures |s| == 1 ==> Number(s + "0") == 10 * Number(s) && Number(s) <= 9
  {
    if |s| == 1 {
      assert (s + "0")[..1] == s;
      assert s[..0] == [];
    } else {
      assert s[..1][..0] == [];
    }
  }

  method ParseMoney(input: string, currency: string) returns (r: Result<Money, MoneyError>)
    ensures r == Parse(input, currency)
  {
    if !ValidCurrency(currency) { return Failure(UnsupportedCurrency); }
    if input == [] { return Failure(InvalidMoney); }
    if Padded(input) { return Failure(InvalidMoney); }
    if ForbiddenNotation(input) { return Failure(ScientificNotation); }
    if ContainsAny(input, ", ") || ContainsAny(input, "\t\r\n") { return Failure(InvalidMoney); }
    if input[0] == '-' { return Failure(NegativeExternal); }
    var parts := SplitDots(input);
    if |parts| > 2 { return Failure(InvalidMoney); }
    var wholePart := parts[0];
    var ok := IsDigits(wholePart);
    if !ok { return Failure(InvalidMoney); }
    var whole := ParseUint(wholePart);
    if whole.None? { return Failure(Overflow); }
    var minor: uint64 := 0;
    if |parts| == 2 {
      var minorPart := parts[1];
      if minorPart == [] { return Failure(InvalidMoney); }
      if ByteLength(minorPart) > 2 { return Failure(ScaleExceeded); }
      ok := IsDigits(minorPart);
      if !ok { return Failure(InvalidMoney); }
      TwoDigitsSmall(minorPart);
      if |minorPart| == 1 { minorPart := minorPart + "0"; }
      var parsed := ParseUint(minorPart);
      minor := parsed.value;
    }
    var maxWhole := MAX_INT64 as uint64 / 100;
    var maxMinor := MAX_INT64 as uint64 % 100;
    if whole.value > maxWhole || (whole.value == maxWhole && minor > maxMinor) {
      return Failure(Overflow);
    }
    return NewMoney((whole.value * 100 + minor) as int64, currency);
  }

  // ---------------------------------------------------------------- what the parser accepts

  lemma {:induction false} SplitNoDot(s: string)
    requires '.' !in s
    ensures SplitDots(s) == [s]
  {
    if s != [] {
      SplitNoDot(s[1..]);
      assert [s[0]] + s[1..] == s;
    }
  }

  lemma {:induction false} SplitOneDot(a: string, b: string)
    requires '.' !in a && '.' !in b
    ensures SplitDots(a + "." + b) == [a, b]
  {
    var s := a + "." + b;
    if a == [] {
      assert s[1..] == b;
      SplitNoDot(b);
    } else {
      assert s[1..] == a[1..] + "." + b;
      SplitOneDot(a[1..], b);
      assert [a[0]] + a[1..] == a;
    }
  }

  lemma {:induction false} SplitJoins(s: string)
    ensures |SplitDots(s)| == 1 ==> SplitDots(s) == [s]
    ensures |SplitDots(s)| == 2 ==> s == SplitDots(s)[0] + "." + SplitDots(s)[1]
  {
    if s != [] {
      SplitJoins(s[1..]);
      var rest := SplitDots(s[1..]);
      assert s == [s[0]] + s[1..];
      if |SplitDots(s)| == 2 && s[0] == '.' {
        assert s == [] + "." + rest[0];
      }
    }
  }

  lemma DecimalHasPlainCharacters(s: string, whole: string, minor: string)
    requires Decimal(s, whole, minor)
    ensures forall i :: 0 <= i < |s| ==> Digit(s[i]) || s[i] == '.'
    ensures Digit(s[0])
  {
  }

  lemma PlainTextPassesFilters(s: string)
    requires s != [] && Digit(s[0]) && forall i :: 0 <= i < |s| ==> Digit(s[i]) || s[i] == '.'
    ensures !Padded(s) && !ForbiddenNotation(s) && s[0] != '-'
    ensures !ContainsAny(s, ", ") && !ContainsAny(s, "\t\r\n")
  {
    assert forall name :: name in ["NaN", "Inf", "Infinity", "INF", "INFINITY"] ==> !Digit(name[0]);
  }

  /**
   Parsing succeeds exactly on the decimals whose value in cents is at most MaxInt64,
   and then returns that value.
   */
  lemma ParseAccepts(input: string, whole: string, minor: string)
    requires Decimal(input, whole, minor)
    ensures Cents(whole, minor) <= MAX_INT64 as int ==>
              Parse(input, BRL) == Success(Money(Cents(whole, minor) as int64, BRL))
    ensures Cents(whole, minor) > MAX_INT64 as int ==> Parse(input, BRL) == Failure(Overflow)
  {
    DecimalHasPlainCharacters(input, whole, minor);
    PlainTextPassesFilters(input);
    if minor == [] {
      SplitNoDot(input);
    } else {
      SplitOneDot(whole, minor);
    }
  }

  lemma ParseSucceedsExactly(input: string, currency: string)
    ensures Parse(input, currency).Success? <==>
            currency == BRL && exists whole, minor ::
              Decimal(input, whole, minor) && Cents(whole, minor) <= MAX_INT64 as int
  {
    if Parse(input, currency).Success? {
      var parts := SplitDots(input);
      SplitJoins(input);
      var minor := if |parts| == 1 then [] else parts[1];
      assert Decimal(input, parts[0], minor);
    }
    if currency == BRL {
      forall whole, minor | Decimal(input, whole, minor) && Cents(whole, minor) <= MAX_INT64 as int
        ensures Parse(input, currency).Success?
      {
        ParseAccepts(input, whole, minor);
      }
    }
  }

  // ---------------------------------------------------------------- what the parser refuses, and how

  /** Lengths add up, and a character takes one to four bytes. */
  lemma {:induction false} ByteLengths(s: string, c: char)
    ensures ByteLength(s + [c]) ==
            ByteLength(s) + if c as int < 0x80 then 1 else if c as int < 0x800 then 2
                            else if c as int < 0x10000 then 3 else 4
  {
    assert (s + [c])[..|s|] == s;
  }

  predicate HasOneOf(s: string, chars: set<char>) {
    exists i :: 0 <= i < |s| && s[i] in chars
  }

  predicate Named(s: string) {
    s == "NaN" || s == "Inf" || s == "Infinity" || s == "INF" || s == "INFINITY"
  }

  lemma ContainsSet(s: string, chars: string, letters: set<char>)
    requires forall c :: c in chars <==> c in letters
    ensures ContainsAny(s, chars) <==> HasOneOf(s, letters)
  {
    if HasOneOf(s, letters) {
      var i :| 0 <= i < |s| && s[i] in letters;
      assert s[i] in chars;
    }
  }

  /** No rule that looks at the text as a whole refuses it. */
  predicate Clean(s: string) {
    && s != "" && !Space(s[0]) && !Space(s[|s| - 1]) && !Named(s)
    && !HasOneOf(s, {'e', 'E', '+', ',', ' ', '\t', '\r', '\n'}) && s[0] != '-'
  }

  /** The rules that look at the text as a whole, in order. */
  lemma ParseRefuses(s: string, currency: string)
    ensures currency != "BRL" ==> Parse(s, currency) == Failure(UnsupportedCurrency)
    ensures s == "" || Space(s[0]) || Space(s[|s| - 1]) ==> Parse(s, "BRL") == Failure(InvalidMoney)
    ensures s != "" && !Space(s[0]) && !Space(s[|s| - 1]) ==>
              if Named(s) || HasOneOf(s, {'e', 'E', '+'}) then Parse(s, "BRL") == Failure(ScientificNotation)
              else if HasOneOf(s, {',', ' ', '\t', '\r', '\n'}) then Parse(s, "BRL") == Failure(InvalidMoney)
              else s[0] == '-' ==> Parse(s, "BRL") == Failure(NegativeExternal)
  {
    ContainsSet(s, "eE+", {'e', 'E', '+'});
    ContainsSet(s, ", ", {',', ' '});
    ContainsSet(s, "\t\r\n", {'\t', '\r', '\n'});
  }

  lemma CleanPasses(s: string)
    requires Clean(s)
    ensures !Padded(s) && !ForbiddenNotation(s) && s[0] != '-'
    ensures !ContainsAny(s, ", ") && !ContainsAny(s, "\t\r\n")
  {
    assert !ContainsAny(s, "eE+");
  }

  /** A clean text without a dot. */
  lemma ParseRefusesWhole(s: string)
    requires Clean(s) && '.' !in s
    ensures !Digits(s) ==> Parse(s, "BRL") == Failure(InvalidMoney)
    ensures Digits(s) && 100 * Number(s) > 0x7fff_ffff_ffff_ffff ==> Parse(s, "BRL") == Failure(Overflow)
  {
    CleanPasses(s);
    SplitNoDot(s);
  }

  /** A clean text with one dot: the parts are looked at from left to right. */
  lemma ParseRefusesParts(whole: string, minor: string)
    requires Clean(whole + "." + minor) && '.' !in whole && '.' !in minor
    ensures var r := Parse(whole + "." + minor, "BRL");
            if !Digits(whole) then r == Failure(InvalidMoney)
            else if Number(whole) > 0xffff_ffff_ffff_ffff then r == Failure(Overflow)
            else if minor == "" then r == Failure(InvalidMoney)
            else if ByteLength(minor) > 2 then r == Failure(ScaleExceeded)
            else if !Digits(minor) then r == Failure(InvalidMoney)
            else 100 * Number(whole) + (if |minor| == 1 then 10 else 1) * Number(minor) > 0x7fff_ffff_ffff_ffff ==>
              r == Failure(Overflow)
  {
    CleanPasses(whole + "." + minor);
    SplitOneDot(whole, minor);
  }

  /** A clean text with two dots or more. */
  lemma ParseRefusesDots(a: string, b: string, c: string)
    requires Clean(a + "." + b + "." + c) && '.' !in a && '.' !in b
    ensures Parse(a + "." + b + "." + c, "BRL") == Failure(InvalidMoney)
  {
    CleanPasses(a + "." + b + "." + c);
    SplitManyDots(a, b + "." + c);
    SplitManyDots(b, c);
    assert a + "." + b + "." + c == a + "." + (b + "." + c);
  }

  lemma {:induction false} SplitManyDots(a: string, rest: string)
    requires '.' !in a
    ensures SplitDots(a + "." + rest) == [a] + SplitDots(rest)
  {
    var s := a + "." + rest;
    if a == [] {
      assert s[1..] == rest;
    } else {
      assert s[1..] == a[1..] + "." + rest;
      SplitManyDots(a[1..], rest);
      assert [a[0]] + a[1..] == a;
    }
  }

  // ---------------------------------------------------------------- printing

  /** The shortest decimal numeral of n, as the verb %d prints it. */
  function Numeral(n: nat): (s: string)
    ensures Digits(s) && Number(s) == n
  {
    if n < 10 then
      var s := [('0' as int + n) as char];
      assert s[..0] == [];
      s
    else
      var s := Numeral(n / 10) + [('0' as int + n % 10) as char];
      assert s[..|s| - 1] == Numeral(n / 10);
      s
  }

  /** Two digits with a leading zero if needed, as the verb %02d prints a number below 100. */
  function TwoDigits(n: nat): (s: string)
    requires n < 100
    ensures Digits(s) && |s| == 2 && Number(s) == n
  {
    var tens := [('0' as int + n / 10) as char];
    var s := tens + [('0' as int + n % 10) as char];
    assert tens[..0] == [] && s[..1] == tens && Number(tens) == n / 10;
    s
  }

  function Text(m: Money): (s: string) {
    if m.amount < 0 then
      var magnitude := (-(m.amount + 1)) as uint64 + 1;
      "-" + Numeral((magnitude / 100) as int) + "." + TwoDigits((magnitude % 100) as int)
    else
      Numeral((m.amount as uint64 / 100) as int) + "." + TwoDigits((m.amount as uint64 % 100) as int)
  }

  /** s is a decimal with two minor digits, after a minus sign if the value is negative. */
  ghost predicate Reads(s: string, cents: int) {
    if cents < 0 then |s| > 0 && s[0] == '-' && ReadsUnsigned(s[1..], -cents) else ReadsUnsigned(s, cents)
  }

  ghost predicate ReadsUnsigned(s: string, cents: nat) {
    exists whole, minor :: Decimal(s, whole, minor) && |minor| == 2 && Cents(whole, minor) == cents
  }

  /** The printed text denotes the exact amount, for every 64-bit amount including MinInt64. */
  lemma TextIsExact(m: Money)
    ensures Reads(Text(m), m.amount as int)
  {
    var magnitude: int := if m.amount < 0 then -(m.amount as int) else m.amount as int;
    var whole, minor := Numeral(magnitude / 100), TwoDigits(magnitude % 100);
    assert Decimal(whole + "." + minor, whole, minor) && Cents(whole, minor) == magnitude;
    assert ReadsUnsigned(whole + "." + minor, magnitude);
    if m.amount < 0 {
      assert Text(m)[1..] == whole + "." + minor;
    }
  }

  /** Printing and parsing back is the identity on every presentable amount. */
  lemma ParseText(m: Money)
    requires Presentable(m)
    ensures Parse(Text(m), m.currency) == Success(m)
  {
    var whole, minor := Numeral(m.amount as int / 100), TwoDigits(m.amount as int % 100);
    assert Decimal(Text(m), whole, minor) && Cents(whole, minor) == m.amount as int;
    ParseAccepts(Text(m), whole, minor);
  }

  /** Negative amounts print but are refused on the way back in. */
  lemma NegativeTextRefused(m: Money)
    requires m.currency == BRL && m.amount < 0
    ensures Parse(Text(m), m.currency) == Failure(NegativeExternal)
  {
    var s := Text(m);
    var magnitude: int := -(m.amount as int);
    var whole, minor := Numeral(magnitude / 100), TwoDigits(magnitude % 100);
    assert s == "-" + whole + "." + minor;
    assert forall i :: 0 <= i < |s| ==> Digit(s[i]) || s[i] == '.' || s[i] == '-';
    assert !ContainsAny(s, ", ") && !ContainsAny(s, "\t\r\n") && !ContainsAny(s, "eE+") && !Padded(s);
  }
}

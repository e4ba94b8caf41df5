/** Reading and printing numerals the way the C library does: sections 7.22.1.2 and 7.22.1.4 of ISO C11. */
module Numerals {
  import opened Wrappers

  const ULONG_LIMIT: nat := 0x1_0000_0000_0000_0000
  const LONG_LIMIT: nat := 0x8000_0000_0000_0000

  datatype Base = Decimal | Hex
  {
    function Radix(): nat {
      if Decimal? then 10 else 16
    }
  }

  /** A numeral found at the start of a text. */
  datatype Subject = Subject(negative: bool, digits: string)

  datatype NumberError = InvalidArgument | OutOfRange

  function DigitOf(c: char): int {
    if '0' <= c <= '9' then c as int - '0' as int
    else if 'a' <= c <= 'f' then c as int - 'a' as int + 10
    else if 'A' <= c <= 'F' then c as int - 'A' as int + 10
    else -1
  }

  predicate IsDigit(c: char, base: Base) {
    0 <= DigitOf(c) < base.Radix()
  }

  predicate AllDigits(s: string, base: Base) {
    forall i :: 0 <= i < |s| ==> IsDigit(s[i], base)
  }

  /** How many digits the text starts with. */
  function DigitRun(s: string, base: Base): (n: nat)
    ensures n <= |s| && AllDigits(s[..n], base)
    ensures n < |s| ==> !IsDigit(s[n], base)
  {
    if s == [] || !IsDigit(s[0], base) then 0
    else
      var n := 1 + DigitRun(s[1..], base);
      assert forall i :: 0 < i < n ==> s[i] == s[1..][..n - 1][i - 1];
      n
  }

  function Value(s: string, base: Base): nat
    requires AllDigits(s, base)
  {
    if s == [] then 0
    else Value(s[..|s| - 1], base) * base.Radix() + DigitOf(s[|s| - 1])
  }

  predicate IsSpace(c: char) {
    c == ' ' || '\U{9}' <= c <= '\U{d}'
  }

  function SpaceRun(s: string): (n: nat)
    ensures n <= |s|
  {
    if s == [] || !IsSpace(s[0]) then 0 else 1 + SpaceRun(s[1..])
  }

  predicate HasHexPrefix(s: string) {
    |s| >= 3 && s[0] == '0' && (s[1] == 'x' || s[1] == 'X') && IsDigit(s[2], Hex)
  }

  /** The longest numeral at the start of the text, after white space: a sign, the prefix of the base if a digit
      follows it, and digits. What comes after is ignored. */
  function FindSubject(s: string, base: Base): (r: Option<Subject>)
    ensures r.Some? ==> r.value.digits != [] && AllDigits(r.value.digits, base)
    ensures r.Some? && r.value.negative ==> '-' in s
  {
    var t := s[SpaceRun(s)..];
    var signed := t != [] && (t[0] == '+' || t[0] == '-');
    var u := if signed then t[1..] else t;
    var v := if base.Hex? && HasHexPrefix(u) then u[2..] else u;
    var n := DigitRun(v, base);
    if n == 0 then None else Some(Subject(signed && t[0] == '-', v[..n]))
  }

  /** std::stoul: a negated value wraps around. */
  function Stoul(s: string, base: Base): Result<nat, NumberError> {
    match FindSubject(s, base)
    case None => Failure(InvalidArgument)
    case Some(subject) =>
      var v := Value(subject.digits, base);
      if v >= ULONG_LIMIT then Failure(OutOfRange)
      else if subject.negative then Success((ULONG_LIMIT - v) % ULONG_LIMIT)
      else Success(v)
  }

  /** std::stol, in base ten. */
  function Stol(s: string): Result<int, NumberError> {
    match FindSubject(s, Decimal)
    case None => Failure(InvalidArgument)
    case Some(subject) =>
      var v: int := Value(subject.digits, Decimal);
      if v > (if subject.negative then LONG_LIMIT else LONG_LIMIT - 1) then Failure(OutOfRange)
      else Success(if subject.negative then -v else v)
  }

  /** atoi, which reads no numeral as zero. */
  function Atoi(s: string): int {
    match FindSubject(s, Decimal)
    case None => 0
    case Some(subject) =>
      var v: int := Value(subject.digits, Decimal);
      if subject.negative then -v else v
  }

  // ---- Printing ----

  function DigitChar(d: nat): (c: char)
    requires d < 16
    ensures DigitOf(c) == d
  {
    "0123456789abcdef"[d]
  }

  function Digits(n: nat, base: Base): string {
    if n < base.Radix() then [DigitChar(n)]
    else Digits(n / base.Radix(), base) + [DigitChar(n % base.Radix())]
  }

  /** Printing a number and reading it back gives the number. */
  lemma {:induction false} DigitsRoundTrip(n: nat, base: Base)
    ensures Digits(n, base) != [] && AllDigits(Digits(n, base), base)
    ensures Value(Digits(n, base), base) == n
  {
    if n < base.Radix() {
      var s := Digits(n, base);
      assert s[..0] == [] && Value(s[..0], base) == 0;
    } else {
      var q, r := n / base.Radix(), n % base.Radix();
      DigitsRoundTrip(q, base);
      var s := Digits(n, base);
      assert s[..|s| - 1] == Digits(q, base);
    }
  }

  lemma {:induction false} DigitRunOf(s: string, base: Base)
    requires AllDigits(s, base)
    ensures DigitRun(s, base) == |s|
  {
  }

  /** A text of digits alone is read as itself. */
  lemma SubjectOfDigits(s: string, base: Base)
    requires AllDigits(s, base) && s != []
    ensures FindSubject(s, base) == Some(Subject(false, s))
  {
    hide Value;
    assert IsDigit(s[0], base);
    DigitRunOf(s, base);
    assert |s| >= 2 ==> IsDigit(s[1], base);
    assert SpaceRun(s) == 0 && s[0..] == s && s[..|s|] == s;
  }

  /** So is a text of hexadecimal digits behind its prefix. */
  lemma SubjectOfHex(s: string)
    requires AllDigits(s, Hex) && s != []
    ensures FindSubject("0x" + s, Hex) == Some(Subject(false, s))
  {
    hide Value;
    var t := "0x" + s;
    assert IsDigit(s[0], Hex) && t[2] == s[0];
    assert SpaceRun(t) == 0 && t[0..] == t && t[2..] == s && s[..|s|] == s;
    DigitRunOf(s, Hex);
  }

  // ---- What digits mean ----

  const LOWER := "0123456789abcdef"
  const UPPER := "0123456789ABCDEF"

  /** A digit as written: its value, and in which case a letter is. */
  datatype Digit = Digit(value: nat, upper: bool)

  function CharOf(d: Digit): char
    requires d.value < 16
  {
    if d.upper then UPPER[d.value] else LOWER[d.value]
  }

  predicate AreDigits(ds: seq<Digit>, radix: nat) {
    forall i :: 0 <= i < |ds| ==> ds[i].value < radix
  }

  function CharsOf(ds: seq<Digit>): string
    requires AreDigits(ds, 16)
  {
    seq(|ds|, i requires 0 <= i < |ds| => CharOf(ds[i]))
  }

  function Power(radix: nat, e: nat): nat {
    if e == 0 then 1 else radix * Power(radix, e - 1)
  }

  /** What digits are worth, each by its place. */
  function Worth(ds: seq<Digit>, radix: nat): nat {
    if ds == [] then 0 else ds[0].value * Power(radix, |ds| - 1) + Worth(ds[1..], radix)
  }

  /** The digits of a base are those characters of the two rows that stand at places below it, and a digit has the value
      of its place. */
  lemma DigitsAre(c: char, base: Base)
    ensures IsDigit(c, base) <==> exists d: nat :: d < base.Radix() && (LOWER[d] == c || UPPER[d] == c)
    ensures forall d: nat :: d < 16 && (LOWER[d] == c || UPPER[d] == c) ==> DigitOf(c) == d
  {
    if IsDigit(c, base) {
      var d: nat := DigitOf(c);
      assert LOWER[d] == c || UPPER[d] == c;
    }
  }

  lemma CharsAreDigits(ds: seq<Digit>, base: Base)
    requires AreDigits(ds, base.Radix())
    ensures AllDigits(CharsOf(ds), base)
    ensures forall i :: 0 <= i < |ds| ==> DigitOf(CharsOf(ds)[i]) == ds[i].value
  {
    forall i | 0 <= i < |ds| ensures IsDigit(CharsOf(ds)[i], base) && DigitOf(CharsOf(ds)[i]) == ds[i].value {
      DigitsAre(CharsOf(ds)[i], base);
    }
  }

  lemma {:induction false} WorthOfOneMore(ds: seq<Digit>, d: Digit, radix: nat)
    ensures Worth(ds + [d], radix) == Worth(ds, radix) * radix + d.value
  {
    if ds == [] {
      assert [d][1..] == [] && Worth([d], radix) == d.value * Power(radix, 0) + Worth([], radix);
    } else {
      assert (ds + [d])[1..] == ds[1..] + [d];
      WorthOfOneMore(ds[1..], d, radix);
      var w, p, r := ds[0].value, Power(radix, |ds| - 1), Worth(ds[1..], radix);
      assert Power(radix, |ds|) == radix * p;
      Distribute(w, p, r, radix);
    }
  }

  lemma Distribute(w: nat, p: nat, r: nat, radix: nat)
    ensures w * (radix * p) + r * radix == (w * p + r) * radix
  {
  }

  /** Reading digits gives what they are worth. */
  lemma {:induction false} ValueIsWorth(ds: seq<Digit>, base: Base)
    requires AreDigits(ds, base.Radix())
    ensures AllDigits(CharsOf(ds), base) && Value(CharsOf(ds), base) == Worth(ds, base.Radix())
  {
    hide Power, DigitOf, CharOf;
    CharsAreDigits(ds, base);
    if ds == [] {
    } else {
      var n := |ds| - 1;
      ValueIsWorth(ds[..n], base);
      WorthOfOneMore(ds[..n], ds[n], base.Radix());
      assert ds[..n] + [ds[n]] == ds;
      assert CharsOf(ds)[..n] == CharsOf(ds[..n]);
    }
  }

  /** What follows the digits is ignored. */
  lemma {:induction false} DigitRunStops(s: string, rest: string, base: Base)
    requires AllDigits(s, base) && (rest == "" || !IsDigit(rest[0], base))
    ensures DigitRun(s + rest, base) == |s|
  {
    if s == "" {
      assert s + rest == rest;
    } else {
      assert IsDigit(s[0], base) && (s + rest)[1..] == s[1..] + rest;
      assert AllDigits(s[1..], base) by {
        assert forall i :: 0 <= i < |s| - 1 ==> s[1..][i] == s[i + 1];
      }
      DigitRunStops(s[1..], rest, base);
    }
  }

  lemma {:induction false} SpaceRunStops(blank: string, rest: string)
    requires (forall i :: 0 <= i < |blank| ==> IsSpace(blank[i])) && (rest == "" || !IsSpace(rest[0]))
    ensures SpaceRun(blank + rest) == |blank|
  {
    if blank == "" {
      assert blank + rest == rest;
    } else {
      assert (blank + rest)[1..] == blank[1..] + rest;
      SpaceRunStops(blank[1..], rest);
    }
  }

  function WithoutPrefix(s: string, base: Base): string {
    if base.Hex? && HasHexPrefix(s) then s[2..] else s
  }

  function PrefixOf(base: Base): string {
    if base.Hex? then "0x" else ""
  }

  lemma DigitsBehindPrefix(ds: seq<Digit>, rest: string, base: Base)
    requires ds != [] && AreDigits(ds, base.Radix()) && (rest == "" || !IsDigit(rest[0], base))
    ensures var u := PrefixOf(base) + CharsOf(ds) + rest;
            && u != "" && IsDigit(u[0], base)
            && DigitRun(WithoutPrefix(u, base), base) == |ds|
            && WithoutPrefix(u, base)[..|ds|] == CharsOf(ds)
  {
    hide DigitRun, CharsOf, AllDigits, DigitOf, IsDigit;
    var digits := CharsOf(ds);
    var u := PrefixOf(base) + digits + rest;
    CharsAreDigits(ds, base);
    FirstIsDigit(ds, base);
    if base.Hex? {
      assert u[..2] == "0x" && u[2] == digits[0] && u[2..] == digits + rest;
      assert u[0] == u[..2][0] && u[1] == u[..2][1];
      assert HasHexPrefix(u);
    } else {
      assert u == digits + rest;
    }
    DigitRunStops(digits, rest, base);
    assert (digits + rest)[..|digits|] == digits;
  }

  lemma SubjectBehindSign(blank: string, sign: string, u: string, base: Base)
    requires forall i :: 0 <= i < |blank| ==> IsSpace(blank[i])
    requires (sign == "" || sign == "+") && u != "" && IsDigit(u[0], base)
    ensures var v := WithoutPrefix(u, base);
            FindSubject(blank + sign + u, base)
            == if DigitRun(v, base) == 0 then None else Some(Subject(false, v[..DigitRun(v, base)]))
  {
    hide DigitRun, SpaceRun, AllDigits, DigitOf, IsDigit, HasHexPrefix;
    var t := sign + u;
    DigitIsPlain(u[0], base);
    SpaceRunStops(blank, t);
    assert blank + sign + u == blank + t;
    assert (blank + t)[|blank|..] == t && t[|sign|..] == u;
  }

  /** The numeral at the start of a text: white space, a plus sign, the prefix of the base, and digits. */
  lemma SubjectIsFound(blank: string, sign: string, ds: seq<Digit>, rest: string, base: Base)
    requires forall i :: 0 <= i < |blank| ==> blank[i] == ' ' || '\U{9}' <= blank[i] <= '\U{d}'
    requires sign == "" || sign == "+"
    requires ds != [] && AreDigits(ds, base.Radix()) && (rest == "" || !IsDigit(rest[0], base))
    ensures FindSubject(blank + sign + PrefixOf(base) + CharsOf(ds) + rest, base) == Some(Subject(false, CharsOf(ds)))
  {
    hide DigitRun, CharsOf, AllDigits, IsDigit, FindSubject, WithoutPrefix, PrefixOf;
    DigitsBehindPrefix(ds, rest, base);
    var u := PrefixOf(base) + CharsOf(ds) + rest;
    SubjectBehindSign(blank, sign, u, base);
    assert blank + sign + PrefixOf(base) + CharsOf(ds) + rest == blank + sign + u;
    FirstIsDigit(ds, base);
  }

  lemma FirstIsDigit(ds: seq<Digit>, base: Base)
    requires ds != [] && AreDigits(ds, base.Radix())
    ensures |CharsOf(ds)| == |ds| && IsDigit(CharsOf(ds)[0], base) && IsDigit('0', base)
  {
    CharsAreDigits(ds, base);
  }

  lemma DigitIsPlain(c: char, base: Base)
    requires IsDigit(c, base)
    ensures !IsSpace(c) && c != '+' && c != '-'
  {
  }

  // ---- Whole numbers ----

  function IntText(v: int): string {
    if v < 0 then "-" + Digits(-v, Decimal) else Digits(v, Decimal)
  }

  lemma SubjectOfMinus(s: string)
    requires AllDigits(s, Decimal) && s != []
    ensures FindSubject("-" + s, Decimal) == Some(Subject(true, s))
  {
    hide Value;
    var t := "-" + s;
    assert SpaceRun(t) == 0 && t[0..] == t && t[1..] == s && s[..|s|] == s;
    DigitRunOf(s, Decimal);
    assert IsDigit(s[0], Decimal);
  }

  /** A number that is written out is read back, by one function always, by the other if it fits a machine word. */
  lemma IntIsRead(v: int)
    ensures Atoi(IntText(v)) == v
    ensures Stol(IntText(v)) ==
            if -9223372036854775808 <= v <= 9223372036854775807 then Success(v) else Failure(OutOfRange)
  {
    hide FindSubject, Digits, Value;
    DigitsRoundTrip(if v < 0 then -v else v, Decimal);
    if v < 0 {
      SubjectOfMinus(Digits(-v, Decimal));
    } else {
      SubjectOfDigits(Digits(v, Decimal), Decimal);
    }
  }

  /** A text that does not start with a number is none. */
  lemma NoNumber(s: string)
    requires s == "" || (!IsDigit(s[0], Decimal) && !IsSpace(s[0]) && s[0] != '+' && s[0] != '-')
    ensures Atoi(s) == 0 && Stol(s) == Failure(InvalidArgument)
  {
    assert s[0..] == s;
  }
}

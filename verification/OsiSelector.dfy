/** Selectors of the OSI layers: a list of bytes, each in decimal or with a 0x prefix, between delimiters. */
module OsiSelector {
  import opened Wrappers
  import opened Numerals

  type byte = x: int | 0 <= x < 256

  datatype SelectorError = TooManyBytes | NotAByte | ExceedsInt | ExceedsByte

  predicate IsDelimiter(c: char) {
    c == ' ' || c == ',' || c == '.' || c == '-'
  }

  // ---- What a text means ----

  function TokenLength(s: string): (n: nat)
    ensures n <= |s| && (forall i :: 0 <= i < n ==> !IsDelimiter(s[i]))
    ensures n < |s| ==> IsDelimiter(s[n])
  {
    if s == [] || IsDelimiter(s[0]) then 0
    else
      var n := 1 + TokenLength(s[1..]);
      assert forall i :: 0 < i < n ==> s[i] == s[1..][i - 1];
      n
  }

  function Tokens(s: string): seq<string>
    decreases |s|
  {
    if s == [] then []
    else if IsDelimiter(s[0]) then Tokens(s[1..])
    else [s[..TokenLength(s)]] + Tokens(s[TokenLength(s)..])
  }

  function BaseOf(token: string): Base {
    if |token| >= 2 && token[..2] == "0x" then Hex else Decimal
  }

  function TokenByte(token: string): Result<byte, SelectorError> {
    match Stoul(token, BaseOf(token))
    case Failure(InvalidArgument) => Failure(NotAByte)
    case Failure(OutOfRange) => Failure(ExceedsInt)
    case Success(v) => if v > 255 then Failure(ExceedsByte) else Success(v)
  }

  /** The bytes stored before the parser stops, and why it stops if it does not reach the end. */
  datatype Parse = Parse(bytes: seq<byte>, error: Option<SelectorError>)

  function ParseTokens(tokens: seq<string>, size: nat): Parse {
    if tokens == [] then Parse([], None)
    else if size == 0 then Parse([], Some(TooManyBytes))
    else
      match TokenByte(tokens[0])
      case Failure(e) => Parse([], Some(e))
      case Success(b) =>
        var rest := ParseTokens(tokens[1..], size - 1);
        rest.(bytes := [b] + rest.bytes)
  }

  function ParseSelector(s: string, size: nat): Parse {
    ParseTokens(Tokens(s), size)
  }

  // ---- The tokens are the maximal runs free of delimiters ----

  /** The definition of the tokens, for one text. */
  lemma TokensStep(s: string)
    requires s != []
    ensures Tokens(s) == if IsDelimiter(s[0]) then Tokens(s[1..])
                         else [s[..TokenLength(s)]] + Tokens(s[TokenLength(s)..])
  {
  }

  predicate IsMaximalRun(s: string, lo: nat, hi: nat) {
    && lo < hi <= |s|
    && (forall i :: lo <= i < hi ==> !IsDelimiter(s[i]))
    && (lo == 0 || IsDelimiter(s[lo - 1]))
    && (hi == |s| || IsDelimiter(s[hi]))
  }

  datatype Span = Span(lo: nat, hi: nat)

  /** Where the tokens of s that start at or after a position are. */
  function Spans(s: string, from: nat): seq<Span>
    requires from <= |s|
    decreases |s| - from
  {
    if from == |s| then []
    else if IsDelimiter(s[from]) then Spans(s, from + 1)
    else
      var hi := from + TokenLength(s[from..]);
      [Span(from, hi)] + Spans(s, hi)
  }

  predicate Increasing(spans: seq<Span>, from: nat, to: nat) {
    && (forall k :: 0 <= k < |spans| ==> from <= spans[k].lo < spans[k].hi <= to)
    && (forall k :: 0 < k < |spans| ==> spans[k - 1].hi < spans[k].lo)
  }

  /** No token starts before and ends after this position. */
  predicate IsBoundary(s: string, from: nat)
    requires from <= |s|
  {
    from == 0 || from == |s| || IsDelimiter(s[from - 1]) || IsDelimiter(s[from])
  }

  lemma {:induction false} SpansAreIncreasing(s: string, from: nat)
    requires from <= |s|
    ensures Increasing(Spans(s, from), from, |s|)
    ensures Spans(s, from) != [] && from < |s| && IsDelimiter(s[from]) ==> from < Spans(s, from)[0].lo
    decreases |s| - from
  {
    if from == |s| {
    } else {
      if IsDelimiter(s[from]) {
        SpansAreIncreasing(s, from + 1);
      } else {
        var hi := from + TokenLength(s[from..]);
        assert hi < |s| ==> s[hi] == s[from..][hi - from];
        SpansAreIncreasing(s, hi);
      }
    }
  }

  /** The spans mark these texts. */
  predicate Marks(spans: seq<Span>, s: string, texts: seq<string>) {
    && |spans| == |texts|
    && forall k :: 0 <= k < |spans| ==> spans[k].lo <= spans[k].hi <= |s| && texts[k] == s[spans[k].lo..spans[k].hi]
  }

  lemma MarksMore(s: string, from: nat, n: nat, spans: seq<Span>, texts: seq<string>)
    requires from + n <= |s| && Marks(spans, s, texts)
    ensures Marks([Span(from, from + n)] + spans, s, [s[from..][..n]] + texts)
  {
  }

  lemma SpansStep(s: string, from: nat)
    requires from < |s|
    ensures !IsDelimiter(s[from]) ==> s[from..][TokenLength(s[from..])..] == s[from + TokenLength(s[from..])..]
    ensures Spans(s, from) == if IsDelimiter(s[from]) then Spans(s, from + 1)
                              else [Span(from, from + TokenLength(s[from..]))] + Spans(s, from + TokenLength(s[from..]))
  {
  }

  lemma {:induction false} SpansAreTokens(s: string, from: nat)
    requires from <= |s|
    ensures Marks(Spans(s, from), s, Tokens(s[from..]))
    decreases |s| - from
  {
    if from == |s| {
    } else {
      TokensStep(s[from..]);
      SpansStep(s, from);
      hide Tokens, TokenLength, Spans, Marks;
      if IsDelimiter(s[from]) {
        assert s[from..][1..] == s[from + 1..];
        SpansAreTokens(s, from + 1);
      } else {
        var n := TokenLength(s[from..]);
        SpansAreTokens(s, from + n);
        MarksMore(s, from, n, Spans(s, from + n), Tokens(s[from + n..]));
      }
    }
  }

  lemma {:induction false} SpansAreMaximalRuns(s: string, from: nat, lo: nat, hi: nat)
    requires from <= |s| && IsBoundary(s, from)
    ensures Span(lo, hi) in Spans(s, from) <==> from <= lo && IsMaximalRun(s, lo, hi)
    decreases |s| - from
  {
    hide TokenLength;
    if from == |s| {
    } else {
      if IsDelimiter(s[from]) {
        SpansAreMaximalRuns(s, from + 1, lo, hi);
      } else {
        FirstRun(s, from, lo, hi);
        SpansAreMaximalRuns(s, from + TokenLength(s[from..]), lo, hi);
      }
    }
  }

  lemma FirstRun(s: string, from: nat, lo: nat, hi: nat)
    requires from < |s| && IsBoundary(s, from) && !IsDelimiter(s[from])
    ensures var end := from + TokenLength(s[from..]);
            && IsMaximalRun(s, from, end) && IsBoundary(s, end)
            && (from <= lo && IsMaximalRun(s, lo, hi) <==>
                (lo == from && hi == end) || (end <= lo && IsMaximalRun(s, lo, hi)))
  {
  }

  /** The tokens of a text are exactly its maximal runs free of delimiters, in the order of the text. */
  lemma TokensAreTheMaximalRuns(s: string) returns (spans: seq<Span>)
    ensures Increasing(spans, 0, |s|) && Marks(spans, s, Tokens(s))
    ensures forall lo: nat, hi: nat :: Span(lo, hi) in spans <==> IsMaximalRun(s, lo, hi)
  {
    spans := Spans(s, 0);
    assert s[0..] == s;
    SpansAreIncreasing(s, 0);
    SpansAreTokens(s, 0);
    forall lo: nat, hi: nat ensures Span(lo, hi) in spans <==> IsMaximalRun(s, lo, hi) {
      SpansAreMaximalRuns(s, 0, lo, hi);
    }
  }

  // ---- When the parser succeeds ----

  /** The parser succeeds exactly when there is room for all tokens and each denotes a byte; then it gives their
      values in order. Otherwise it stops at the first token without room or without a byte. */
  lemma {:induction false} ParseOutcome(tokens: seq<string>, size: nat)
    ensures var p := ParseTokens(tokens, size);
            && (p.error.None? <==> |tokens| <= size && forall t :: t in tokens ==> TokenByte(t).Success?)
            && |p.bytes| <= |tokens| && |p.bytes| <= size
            && (forall k :: 0 <= k < |p.bytes| ==> TokenByte(tokens[k]) == Success(p.bytes[k]))
            && (p.error.None? ==> |p.bytes| == |tokens|)
            && (p.error.Some? ==>
                  && |p.bytes| < |tokens|
                  && (|p.bytes| == size ==> p.error.value == TooManyBytes)
                  && (|p.bytes| < size ==> TokenByte(tokens[|p.bytes|]) == Failure(p.error.value)))
  {
    hide TokenByte;
    if tokens == [] {
    } else if size == 0 || TokenByte(tokens[0]).Failure? {
      assert tokens[0] in tokens;
    } else {
      ParseOutcome(tokens[1..], size - 1);
      assert tokens == [tokens[0]] + tokens[1..];
    }
  }

  lemma {:induction false} TokensHaveNoDelimiter(s: string, t: string)
    requires t in Tokens(s)
    ensures t != [] && forall i :: 0 <= i < |t| ==> !IsDelimiter(t[i])
    decreases |s|
  {
    if IsDelimiter(s[0]) {
      TokensHaveNoDelimiter(s[1..], t);
    } else if t != s[..TokenLength(s)] {
      TokensHaveNoDelimiter(s[TokenLength(s)..], t);
    }
  }

  /** A minus sign separates tokens, so no byte is ever read by wrapping a negative number around: a token denotes a
      byte exactly when the digits it starts with have a value up to 255. */
  lemma TokenValueIsPlain(s: string, t: string)
    requires t in Tokens(s)
    ensures var subject := FindSubject(t, BaseOf(t));
            && (TokenByte(t).Success? <==> subject.Some? && Value(subject.value.digits, BaseOf(t)) <= 255)
            && (TokenByte(t).Success? ==> TokenByte(t).value == Value(subject.value.digits, BaseOf(t)))
            && (TokenByte(t) == Failure(NotAByte) <==> subject.None?)
  {
    TokensHaveNoDelimiter(s, t);
    assert '-' !in t by {
      assert forall i :: 0 <= i < |t| ==> t[i] != '-';
    }
  }

  /** The value a token denotes, if it denotes one: the digits it starts with, in the base its prefix says. */
  function Denotes(t: string): Option<nat> {
    match FindSubject(t, BaseOf(t))
    case None => None
    case Some(subject) => Some(Value(subject.digits, BaseOf(t)))
  }

  /** For every text and capacity: the parser succeeds exactly when the tokens are no more than there is room for and
      each denotes a value up to 255, and it then stores exactly those values in order. */
  lemma ParseSucceedsExactly(s: string, size: nat)
    ensures var p, tokens := ParseSelector(s, size), Tokens(s);
            && (p.error.None? <==>
                && |tokens| <= size
                && forall k :: 0 <= k < |tokens| ==> Denotes(tokens[k]).Some? && Denotes(tokens[k]).value <= 255)
            && (p.error.None? ==>
                && |p.bytes| == |tokens|
                && forall k :: 0 <= k < |tokens| ==> Denotes(tokens[k]) == Some(p.bytes[k]))
  {
    var tokens := Tokens(s);
    ParseOutcome(tokens, size);
    forall k | 0 <= k < |tokens|
      ensures TokenByte(tokens[k]).Success? <==> Denotes(tokens[k]).Some? && Denotes(tokens[k]).value <= 255
      ensures TokenByte(tokens[k]).Success? ==> Denotes(tokens[k]) == Some(TokenByte(tokens[k]).value)
    {
      TokenValueIsPlain(s, tokens[k]);
    }
    hide TokenByte, Denotes, Tokens;
  }

  // ---- Joining and printing ----

  lemma {:induction false} TokensJoin(a: string, d: char, b: string)
    requires IsDelimiter(d)
    ensures Tokens(a + [d] + b) == Tokens(a) + Tokens(b)
    decreases |a|
  {
    var s := a + [d] + b;
    TokensStep(s);
    if a == [] {
      assert s[1..] == b;
    } else {
      TokensStep(a);
      hide Tokens, TokenLength;
      if IsDelimiter(a[0]) {
        assert s[1..] == a[1..] + [d] + b;
        TokensJoin(a[1..], d, b);
      } else {
        TokenLengthJoin(a, d, b);
        var n := TokenLength(a);
        assert s[..n] == a[..n] && s[n..] == a[n..] + [d] + b;
        TokensJoin(a[n..], d, b);
      }
    }
  }

  lemma {:induction false} TokenLengthJoin(a: string, d: char, b: string)
    requires IsDelimiter(d)
    ensures TokenLength(a + [d] + b) == TokenLength(a)
  {
    if a == [] || IsDelimiter(a[0]) {
    } else {
      assert (a + [d] + b)[1..] == a[1..] + [d] + b;
      TokenLengthJoin(a[1..], d, b);
    }
  }

  /** Going on with a second parse where the first one ended, unless it ended in an error. */
  function Then(first: Parse, second: Parse): Parse {
    if first.error.Some? then first else Parse(first.bytes + second.bytes, second.error)
  }

  lemma ThenAssociates(p: Parse, q: Parse, r: Parse)
    ensures Then(Then(p, q), r) == Then(p, Then(q, r))
  {
  }

  lemma ParseStep(tokens: seq<string>, size: nat)
    requires tokens != [] && size > 0
    ensures match TokenByte(tokens[0])
            case Failure(e) => ParseTokens(tokens, size) == Parse([], Some(e))
            case Success(b) => ParseTokens(tokens, size) == Then(Parse([b], None), ParseTokens(tokens[1..], size - 1))
    ensures |ParseTokens(tokens, size).bytes| <= size
  {
    ParseOutcome(tokens, size);
  }

  predicate Joins(a: seq<string>, b: seq<string>, size: nat) {
    var first := ParseTokens(a, size);
    |first.bytes| <= size && ParseTokens(a + b, size) == Then(first, ParseTokens(b, size - |first.bytes|))
  }

  /** Two lists of tokens with the same first one stop there, or go on, together. */
  lemma FirstOfBoth(a: seq<string>, b: seq<string>, size: nat) returns (stop: bool, first: byte)
    requires a != [] && size > 0
    ensures stop ==> Joins(a, b, size)
    ensures !stop ==>
              && ParseTokens(a, size) == Then(Parse([first], None), ParseTokens(a[1..], size - 1))
              && ParseTokens(a + b, size) == Then(Parse([first], None), ParseTokens(a[1..] + b, size - 1))
  {
    assert (a + b)[0] == a[0] && (a + b)[1..] == a[1..] + b;
    ParseStep(a, size);
    ParseStep(a + b, size);
    hide ParseTokens;
    match TokenByte(a[0])
    case Failure(_) => stop, first := true, 0;
    case Success(c) => stop, first := false, c;
  }

  lemma JoinEnds(a: seq<string>, b: seq<string>, size: nat)
    requires a == [] || size == 0
    ensures Joins(a, b, size)
  {
    if a == [] {
      assert a + b == b;
      assert [] + ParseTokens(b, size).bytes == ParseTokens(b, size).bytes;
    }
  }

  lemma {:induction false} ParseTokensJoin(a: seq<string>, b: seq<string>, size: nat)
    ensures Joins(a, b, size)
  {
    if a == [] || size == 0 {
      JoinEnds(a, b, size);
    } else {
      hide ParseTokens, Joins, Then;
      var stop, first := FirstOfBoth(a, b, size);
      if !stop {
        ParseTokensJoin(a[1..], b, size - 1);
        JoinStep(first, a, b, size);
      }
    }
  }

  lemma JoinStep(first: byte, a: seq<string>, b: seq<string>, size: nat)
    requires a != [] && size > 0 && Joins(a[1..], b, size - 1)
    requires ParseTokens(a, size) == Then(Parse([first], None), ParseTokens(a[1..], size - 1))
    requires ParseTokens(a + b, size) == Then(Parse([first], None), ParseTokens(a[1..] + b, size - 1))
    ensures Joins(a, b, size)
  {
    hide ParseTokens, Then;
    var rest := ParseTokens(a[1..], size - 1);
    var last := ParseTokens(b, size - 1 - |rest.bytes|);
    OneThen(first, rest);
    ThenAssociates(Parse([first], None), rest, last);
  }

  lemma OneThen(first: byte, rest: Parse)
    ensures |Then(Parse([first], None), rest).bytes| == 1 + |rest.bytes|
  {
  }

  /** Two selectors joined by a delimiter parse like the one followed by the other in the room that is left: the same
      bytes, and the same error at the same place if there is one. */
  lemma ParseJoin(a: string, d: char, b: string, size: nat)
    requires IsDelimiter(d)
    ensures |ParseSelector(a, size).bytes| <= size
    ensures ParseSelector(a + [d] + b, size)
            == Then(ParseSelector(a, size), ParseSelector(b, size - |ParseSelector(a, size).bytes|))
  {
    hide Tokens, ParseTokens, Then;
    TokensJoin(a, d, b);
    ParseTokensJoin(Tokens(a), Tokens(b), size);
  }

  // ---- How a byte may be written ----

  /** A number as written: white space, a plus sign, the prefix of its base, digits, and what is ignored behind them. */
  datatype Numeral = Numeral(blank: string, sign: string, base: Base, digits: seq<Digit>, rest: string)

  predicate IsSeparator(c: char) {
    c == ' ' || c == ',' || c == '.' || c == '-'
  }

  /** A hexadecimal number must start with its prefix, or only the zero of the prefix is read. What follows the digits
      is no further digit and no separator, and does not make the prefix of a hexadecimal number of a decimal zero. */
  predicate IsWritten(n: Numeral) {
    && n.digits != [] && AreDigits(n.digits, n.base.Radix())
    && (forall i :: 0 <= i < |n.blank| ==> '\U{9}' <= n.blank[i] <= '\U{d}')
    && (n.sign == "" || n.sign == "+")
    && (n.base.Hex? ==> n.blank == "" && n.sign == "")
    && (forall i :: 0 <= i < |n.rest| ==> !IsSeparator(n.rest[i]))
    && (n.rest != "" ==> forall d: nat :: d < n.base.Radix() ==> LOWER[d] != n.rest[0] && UPPER[d] != n.rest[0])
    && (n.base.Decimal? && n.blank == "" && n.sign == "" && |n.digits| == 1 && n.digits[0].value == 0 && n.rest != ""
        ==> n.rest[0] != 'x')
  }

  function Spelled(n: Numeral): string
    requires IsWritten(n)
  {
    n.blank + n.sign + PrefixOf(n.base) + CharsOf(n.digits) + n.rest
  }

  function WorthOf(n: Numeral): nat
    requires IsWritten(n)
  {
    Worth(n.digits, n.base.Radix())
  }

  lemma BaseIsSeen(n: Numeral)
    requires IsWritten(n)
    ensures BaseOf(Spelled(n)) == n.base
  {
    hide AllDigits, DigitOf, IsDigit;
    var t := Spelled(n);
    FirstIsDigit(n.digits, n.base);
    if n.base.Hex? {
      assert t[..2] == "0x";
    } else if |t| >= 2 && t[..2] == "0x" {
      assert t[0] == t[..2][0] == '0' && t[1] == t[..2][1] == 'x';
      NoPrefixInDecimal(n);
    }
  }

  lemma NoPrefixInDecimal(n: Numeral)
    requires IsWritten(n) && n.base.Decimal? && |Spelled(n)| >= 2
    ensures !(Spelled(n)[0] == '0' && Spelled(n)[1] == 'x')
  {
    var t, chars := Spelled(n), CharsOf(n.digits);
    CharsAreDigits(n.digits, Decimal);
    if n.blank != "" {
      assert t[0] == n.blank[0];
    } else if n.sign != "" {
      assert t[0] == n.sign[0];
    } else {
      assert t == chars + n.rest && t[0] == chars[0];
      if |chars| > 1 {
        assert t[1] == chars[1] && IsDigit(chars[1], Decimal);
      } else {
        assert t[1] == n.rest[0];
      }
    }
  }

  /** A number as written denotes what its digits are worth by their places, in either case, with leading zeros or a
      plus sign, and whatever is ignored behind it; it is a byte up to 255, and which error it is above that depends on
      whether it fits a machine word. */
  lemma NumeralIsRead(n: Numeral)
    requires IsWritten(n)
    ensures Denotes(Spelled(n)) == Some(WorthOf(n))
    ensures TokenByte(Spelled(n)) ==
            if WorthOf(n) <= 255 then Success(WorthOf(n))
            else if WorthOf(n) <= 18446744073709551615 then Failure(ExceedsByte)
            else Failure(ExceedsInt)
  {
    hide FindSubject, Value, Worth, CharsOf;
    BaseIsSeen(n);
    if n.rest != "" {
      DigitsAre(n.rest[0], n.base);
    }
    SubjectIsFound(n.blank, n.sign, n.digits, n.rest, n.base);
    ValueIsWorth(n.digits, n.base);
  }

  lemma NumeralIsToken(n: Numeral)
    requires IsWritten(n)
    ensures Spelled(n) != "" && forall i :: 0 <= i < |Spelled(n)| ==> !IsDelimiter(Spelled(n)[i])
  {
    hide DigitOf;
    var t, chars := Spelled(n), CharsOf(n.digits);
    FirstIsDigit(n.digits, n.base);
    forall i | 0 <= i < |chars| ensures !IsDelimiter(chars[i]) {
      CharIsPlain(n.digits[i]);
    }
    NoDelimiter(n.blank, n.sign);
    NoDelimiter(n.blank + n.sign, PrefixOf(n.base));
    NoDelimiter(n.blank + n.sign + PrefixOf(n.base), chars);
    NoDelimiter(n.blank + n.sign + PrefixOf(n.base) + chars, n.rest);
  }

  lemma CharIsPlain(d: Digit)
    requires d.value < 16
    ensures !IsDelimiter(CharOf(d)) && CharOf(d) != '\0'
  {
  }

  lemma NoDelimiter(a: string, b: string)
    requires forall i :: 0 <= i < |a| ==> !IsDelimiter(a[i])
    requires forall i :: 0 <= i < |b| ==> !IsDelimiter(b[i])
    ensures forall i :: 0 <= i < |a + b| ==> !IsDelimiter((a + b)[i])
  {
  }

  /** A token that has no digit where its number should be is no byte. */
  lemma NoDigitNoByte(blank: string, sign: string, rest: string)
    requires forall i :: 0 <= i < |blank| ==> '\U{9}' <= blank[i] <= '\U{d}'
    requires sign == "" || sign == "+"
    requires rest != "" ==>
               && (forall d: nat :: d < 10 ==> LOWER[d] != rest[0] && UPPER[d] != rest[0])
               && rest[0] != ' ' && !('\U{9}' <= rest[0] <= '\U{d}')
               && (sign == "" ==> rest[0] != '+' && rest[0] != '-')
    ensures TokenByte(blank + sign + rest) == Failure(NotAByte)
  {
    hide Value, DigitOf;
    assert LOWER[0] == '0';
    var t := sign + rest;
    assert blank + t == blank + sign + rest;
    SpaceRunStops(blank, t);
    assert (blank + t)[|blank|..] == t && t[|sign|..] == rest;
    if rest != "" {
      DigitsAre(rest[0], Decimal);
    }
    NoPrefix(blank, sign, rest);
  }

  lemma NoPrefix(blank: string, sign: string, rest: string)
    requires forall i :: 0 <= i < |blank| ==> blank[i] != '0'
    requires forall i :: 0 <= i < |sign| ==> sign[i] != '0'
    requires rest != "" ==> rest[0] != '0'
    ensures BaseOf(blank + sign + rest) == Decimal
  {
    var t := blank + sign + rest;
    assert |t| >= 2 ==> t[0] == t[..2][0] && t[0] != '0';
  }

  /** Of a prefix without a hexadecimal digit behind it only the zero is read. */
  lemma PrefixAloneIsZero(rest: string)
    requires rest != "" ==> forall d: nat :: d < 16 ==> LOWER[d] != rest[0] && UPPER[d] != rest[0]
    ensures TokenByte("0x" + rest) == Success(0)
  {
    var t := "0x" + rest;
    assert t[..2] == "0x" && t[0] == '0' && t[1] == 'x';
    if rest != "" {
      assert t[2] == rest[0];
      DigitsAre(rest[0], Hex);
    }
    assert SpaceRun(t) == 0 && t[0..] == t;
    assert IsDigit(t[0], Hex) && !IsDigit(t[1], Hex) && t[1..][0] == t[1];
    assert DigitRun(t[1..], Hex) == 0;
    assert DigitRun(t, Hex) == 1 && t[..1] == "0";
    assert Value("0", Hex) == 0 by {
      assert "0"[..0] == "";
    }
  }

  lemma WorthOfFew(a: Digit, b: Digit, c: Digit, radix: nat)
    ensures Worth([a], radix) == a.value
    ensures Worth([a, b], radix) == a.value * radix + b.value
    ensures Worth([a, b, c], radix) == (a.value * radix + b.value) * radix + c.value
  {
    assert [] + [a] == [a] && [a] + [b] == [a, b] && [a, b] + [c] == [a, b, c];
    WorthOfOneMore([], a, radix);
    WorthOfOneMore([a], b, radix);
    WorthOfOneMore([a, b], c, radix);
  }

  /** Some texts that are written in unusual ways, and what they are read as. */
  lemma UnusualHexBytes()
    ensures TokenByte("0xAB") == Success(171) && TokenByte("0xaB") == Success(171) && TokenByte("0x") == Success(0)
  {
    hide TokenByte, Denotes, Worth, Power;
    var a, A, B := Digit(10, false), Digit(10, true), Digit(11, true);
    var n, m := Numeral("", "", Hex, [A, B], ""), Numeral("", "", Hex, [a, B], "");
    assert CharsOf([A, B]) == "AB" && CharsOf([a, B]) == "aB";
    assert Spelled(n) == "0xAB" && Spelled(m) == "0xaB";
    WorthOfFew(A, B, B, 16);
    WorthOfFew(a, B, B, 16);
    NumeralIsRead(n);
    NumeralIsRead(m);
    PrefixAloneIsZero("");
    assert "0x" + "" == "0x";
  }

  lemma UnusualDecimalBytes()
    ensures TokenByte("12abc") == Success(12) && TokenByte("+07") == Success(7)
  {
    hide TokenByte, Denotes, Worth, Power;
    var zero, one, two, seven := Digit(0, false), Digit(1, false), Digit(2, false), Digit(7, false);
    assert CharsOf([one, two]) == "12" && CharsOf([zero, seven]) == "07";
    var n := Numeral("", "", Decimal, [one, two], "abc");
    assert Spelled(n) == "12abc";
    WorthOfFew(one, two, two, 10);
    NumeralIsRead(n);
    var m := Numeral("", "+", Decimal, [zero, seven], "");
    assert Spelled(m) == "+07";
    WorthOfFew(zero, seven, seven, 10);
    NumeralIsRead(m);
  }

  lemma NoBytes()
    ensures TokenByte("0X1F") == Success(0) && TokenByte("x") == Failure(NotAByte)
  {
    hide TokenByte, Denotes, Worth, Power;
    var zero := Digit(0, false);
    WorthOfFew(zero, zero, zero, 10);
    assert CharsOf([zero]) == "0";
    var k := Numeral("", "", Decimal, [zero], "X1F");
    assert Spelled(k) == "0X1F";
    NumeralIsRead(k);
    NoDigitNoByte("", "", "x");
    assert "" + "" + "x" == "x";
  }

  function DigitsOf(v: nat, base: Base): seq<Digit> {
    if v < base.Radix() then [Digit(v, false)]
    else DigitsOf(v / base.Radix(), base) + [Digit(v % base.Radix(), false)]
  }

  /** A number in its usual spelling, in either base. */
  function Plain(v: nat, base: Base): Numeral {
    Numeral("", "", base, DigitsOf(v, base), "")
  }

  lemma {:induction false} DigitsOfAreWorth(v: nat, base: Base)
    ensures DigitsOf(v, base) != [] && AreDigits(DigitsOf(v, base), base.Radix())
    ensures Worth(DigitsOf(v, base), base.Radix()) == v
  {
    hide Worth;
    if v < base.Radix() {
      WorthOfFew(Digit(v, false), Digit(v, false), Digit(v, false), base.Radix());
    } else {
      var q, d := v / base.Radix(), Digit(v % base.Radix(), false);
      DigitsOfAreWorth(q, base);
      WorthOfOneMore(DigitsOf(q, base), d, base.Radix());
    }
  }

  /** Every number has a spelling in either base. */
  lemma PlainIsWritten(v: nat, base: Base)
    ensures IsWritten(Plain(v, base)) && WorthOf(Plain(v, base)) == v
  {
    DigitsOfAreWorth(v, base);
  }

  // ---- Writing selectors ----

  /** One byte as written in a configuration, with the delimiters in front of it. */
  datatype Item = Item(delimiters: string, value: byte, numeral: Numeral)

  predicate AllDelimiters(s: string) {
    forall i :: 0 <= i < |s| ==> IsSeparator(s[i])
  }

  predicate WellSeparated(items: seq<Item>) {
    && (forall k :: 0 <= k < |items| ==> AllDelimiters(items[k].delimiters))
    && (forall k :: 0 < k < |items| ==> items[k].delimiters != [])
    && (forall k :: 0 <= k < |items| ==> Spells(items[k]))
  }

  predicate Spells(item: Item) {
    IsWritten(item.numeral) && WorthOf(item.numeral) == item.value
  }

  function Print(items: seq<Item>, tail: string): string
    requires forall k :: 0 <= k < |items| ==> Spells(items[k])
  {
    if items == [] then tail
    else
      assert Spells(items[0]);
      items[0].delimiters + Spelled(items[0].numeral) + Print(items[1..], tail)
  }

  function Values(items: seq<Item>): seq<byte> {
    if items == [] then [] else [items[0].value] + Values(items[1..])
  }

  lemma {:induction false} SkipDelimiters(d: string, s: string)
    requires AllDelimiters(d)
    ensures Tokens(d + s) == Tokens(s)
  {
    if d == [] {
      assert d + s == s;
    } else {
      assert (d + s)[1..] == d[1..] + s;
      SkipDelimiters(d[1..], s);
    }
  }

  lemma {:induction false} FirstToken(t: string, s: string)
    requires t != [] && (forall i :: 0 <= i < |t| ==> !IsDelimiter(t[i]))
    requires s == [] || IsDelimiter(s[0])
    ensures TokenLength(t + s) == |t|
  {
    if |t| == 1 {
      assert (t + s)[1..] == s;
    } else {
      assert (t + s)[1..] == t[1..] + s;
      FirstToken(t[1..], s);
    }
  }

  lemma TokenThen(t: string, s: string)
    requires t != [] && (forall i :: 0 <= i < |t| ==> !IsDelimiter(t[i]))
    requires s == [] || IsDelimiter(s[0])
    ensures Tokens(t + s) == [t] + Tokens(s)
  {
    FirstToken(t, s);
    assert !IsDelimiter((t + s)[0]);
    assert (t + s)[..|t|] == t && (t + s)[|t|..] == s;
  }

  lemma TokensOfPrint(item: Item, rest: string)
    requires AllDelimiters(item.delimiters) && (rest == [] || IsDelimiter(rest[0]))
    requires Spells(item)
    ensures Tokens(item.delimiters + Spelled(item.numeral) + rest) == [Spelled(item.numeral)] + Tokens(rest)
  {
    NumeralIsToken(item.numeral);
    TokenSplit(item.delimiters, Spelled(item.numeral), rest);
  }

  lemma OneMoreByte(t: string, tokens: seq<string>, v: byte, values: seq<byte>, size: nat)
    requires size > 0 && TokenByte(t) == Success(v) && ParseTokens(tokens, size - 1) == Parse(values, None)
    ensures ParseTokens([t] + tokens, size) == Parse([v] + values, None)
  {
  }

  lemma OneMoreItem(item: Item, rest: string, values: seq<byte>, size: nat)
    requires AllDelimiters(item.delimiters) && (rest == [] || IsDelimiter(rest[0]))
    requires size > 0 && Spells(item) && TokenByte(Spelled(item.numeral)) == Success(item.value)
    requires ParseSelector(rest, size - 1) == Parse(values, None)
    ensures ParseSelector(item.delimiters + Spelled(item.numeral) + rest, size) == Parse([item.value] + values, None)
  {
    hide TokenByte, IsWritten, Spelled, Tokens, ParseTokens;
    TokensOfPrint(item, rest);
    OneMoreByte(Spelled(item.numeral), Tokens(rest), item.value, values, size);
  }

  lemma NothingPrinted(tail: string, size: nat)
    requires AllDelimiters(tail)
    ensures ParseSelector(tail, size) == Parse([], None)
  {
    SkipDelimiters(tail, []);
    assert tail + [] == tail;
  }

  /** Any bytes that fit, each written in any of these ways between any delimiters, are read back unchanged. */
  lemma {:induction false} PrintRoundTrip(items: seq<Item>, tail: string, size: nat)
    requires WellSeparated(items) && AllDelimiters(tail) && |items| <= size
    ensures ParseSelector(Print(items, tail), size) == Parse(Values(items), None)
  {
    hide TokenByte, Spelled, IsWritten, ParseSelector, WellSeparated, AllDelimiters, IsDelimiter;
    if items == [] {
      NothingPrinted(tail, size);
    } else {
      RestStartsApart(items, tail);
      var item, rest := items[0], Print(items[1..], tail);
      NumeralIsRead(item.numeral);
      PrintRoundTrip(items[1..], tail, size - 1);
      OneMoreItem(item, rest, Values(items[1..]), size);
    }
  }

  lemma RestStartsApart(items: seq<Item>, tail: string)
    requires WellSeparated(items) && AllDelimiters(tail) && items != []
    ensures Print(items[1..], tail) == [] || IsDelimiter(Print(items[1..], tail)[0])
    ensures AllDelimiters(items[0].delimiters) && WellSeparated(items[1..]) && Spells(items[0])
  {
  }

  // ---- The parser itself ----

  predicate IsTerminated(s: string) {
    '\0' in s
  }

  /** The text a C string holds: what comes before the first null character. */
  function Content(s: string): (r: string)
    requires IsTerminated(s)
    ensures |r| < |s| && r == s[..|r|] && s[|r|] == '\0' && '\0' !in r
  {
    if s[0] == '\0' then [] else
      assert s[0] == s[..1][0] && s == s[..1] + s[1..];
      s[..1] + Content(s[1..])
  }

  lemma {:induction false} ContentIs(s: string, n: nat)
    requires n < |s| && s[n] == '\0' && forall i :: 0 <= i < n ==> s[i] != '\0'
    ensures IsTerminated(s) && Content(s) == s[..n]
  {
  }

  /** What the first token of a text is, and what is left after it. */
  lemma TokenSplit(d: string, t: string, rest: string)
    requires AllDelimiters(d) && t != [] && (forall i :: 0 <= i < |t| ==> !IsDelimiter(t[i]))
    requires rest == [] || IsDelimiter(rest[0])
    ensures Tokens(d + t + rest) == [t] + Tokens(if rest == [] then [] else rest[1..])
  {
    assert d + t + rest == d + (t + rest);
    SkipDelimiters(d, t + rest);
    TokenThen(t, rest);
  }

  /** Every character is as it was, or a delimiter that has been overwritten by a null character. */
  predicate Overwritten(was: string, now: string) {
    |now| == |was| && forall k :: 0 <= k < |was| ==> now[k] == was[k] || (IsDelimiter(was[k]) && now[k] == '\0')
  }

  lemma OverwrittenTwice(a: string, b: string, c: string)
    requires Overwritten(a, b) && Overwritten(b, c)
    ensures Overwritten(a, c)
  {
  }

  /** A C string starts here: a null character ends it. */
  predicate StringAt(s: string, k: int) {
    0 <= k <= |s| && IsTerminated(s[k..])
  }

  function ContentAt(s: string, k: int): string
    requires StringAt(s, k)
  {
    Content(s[k..])
  }

  /** The first position that holds no delimiter. */
  method SkipSpan(text: array<char>, from: nat) returns (start: nat)
    requires StringAt(text[..], from)
    ensures from <= start <= from + |ContentAt(text[..], from)|
    ensures AllDelimiters(text[..][from..start]) && !IsDelimiter(text[start])
  {
    ghost var c := ContentAt(text[..], from);
    assert text[..][from..][|c|] == text[from + |c|];
    start := from;
    while IsDelimiter(text[start])
      invariant from <= start <= from + |c|
      invariant AllDelimiters(text[..][from..start])
      decreases text.Length - start
    {
      start := start + 1;
    }
  }

  /** The first position that holds a delimiter or ends the text. */
  method FindEnd(text: array<char>, start: nat) returns (end: nat)
    requires StringAt(text[..], start)
    ensures start <= end <= start + |ContentAt(text[..], start)|
    ensures forall i :: start <= i < end ==> !IsDelimiter(text[i]) && text[i] != '\0'
    ensures text[end] == '\0' || IsDelimiter(text[end])
  {
    ghost var c := ContentAt(text[..], start);
    assert text[..][start..][|c|] == text[start + |c|];
    end := start;
    while text[end] != '\0' && !IsDelimiter(text[end])
      invariant start <= end <= start + |c|
      invariant forall i :: start <= i < end ==> !IsDelimiter(text[i]) && text[i] != '\0'
      decreases text.Length - end
    {
      end := end + 1;
    }
  }

  /** Where the content of a later part of a text ends. */
  lemma ContentFrom(s: string, from: nat, at: nat)
    requires StringAt(s, from) && from <= at <= from + |ContentAt(s, from)|
    ensures StringAt(s, at) && ContentAt(s, at) == ContentAt(s, from)[at - from..]
  {
    var c := ContentAt(s, from);
    var n := from + |c| - at;
    assert forall i :: 0 <= i <= n ==> s[at..][i] == s[from..][at - from + i];
    ContentIs(s[at..], n);
    assert s[at..][..n] == c[at - from..];
  }

  lemma NothingLeft(s: string, from: nat, start: nat)
    requires StringAt(s, from) && from <= start <= from + |ContentAt(s, from)|
    requires AllDelimiters(s[from..start]) && s[start] == '\0'
    ensures StringAt(s, start) && Tokens(ContentAt(s, from)) == []
  {
    var c := ContentAt(s, from);
    ContentFrom(s, from, start);
    assert s[from..][start - from] == s[start];
    assert c == s[from..start];
    SkipDelimiters(c, []);
    assert c + [] == c;
  }

  lemma SplitAtToken(s: string, from: nat, start: nat, end: nat)
    requires StringAt(s, from) && from <= start < end <= from + |ContentAt(s, from)|
    requires AllDelimiters(s[from..start]) && (forall i :: start <= i < end ==> !IsDelimiter(s[i]))
    requires s[end] == '\0' || IsDelimiter(s[end])
    ensures var next := if s[end] == '\0' then end else end + 1;
            && StringAt(s, next)
            && Tokens(ContentAt(s, from)) == [s[start..end]] + Tokens(ContentAt(s, next))
  {
    var c := ContentAt(s, from);
    ContentFrom(s, from, end);
    ContentPieces(s, from, start, end);
    var rest := ContentAt(s, end);
    TokenIsToken(s, start, end);
    hide Tokens, Content;
    TokenSplit(s[from..start], s[start..end], rest);
    if rest != [] {
      ContentFrom(s, end, end + 1);
    }
  }

  lemma TokenIsToken(s: string, start: nat, end: nat)
    requires start < end <= |s| && forall i :: start <= i < end ==> !IsDelimiter(s[i])
    ensures s[start..end] != [] && forall i :: 0 <= i < end - start ==> !IsDelimiter(s[start..end][i])
  {
  }

  lemma ContentPieces(s: string, from: nat, start: nat, end: nat)
    requires StringAt(s, from) && from <= start < end <= from + |ContentAt(s, from)|
    requires StringAt(s, end) && ContentAt(s, end) == ContentAt(s, from)[end - from..]
    ensures ContentAt(s, from) == s[from..start] + s[start..end] + ContentAt(s, end)
    ensures ContentAt(s, end) == [] <==> s[end] == '\0'
    ensures ContentAt(s, end) != [] ==> ContentAt(s, end)[0] == s[end]
  {
  }

  /** The text after the delimiter behind a token has been overwritten. */
  function Cut(s: string, end: nat): string
    requires end < |s|
  {
    if s[end] == '\0' then s else s[end := '\0']
  }

  lemma CutKeeps(s: string, start: nat, end: nat)
    requires start <= end < |s| && forall i :: start <= i < end ==> s[i] != '\0'
    requires s[end] == '\0' || IsDelimiter(s[end])
    ensures StringAt(Cut(s, end), start) && ContentAt(Cut(s, end), start) == s[start..end]
    ensures Overwritten(s, Cut(s, end))
  {
  }

  lemma CutKeepsAfter(s: string, end: nat, next: nat)
    requires end < |s| && next == (if s[end] == '\0' then end else end + 1) && StringAt(s, next)
    ensures StringAt(Cut(s, end), next) && ContentAt(Cut(s, end), next) == ContentAt(s, next)
  {
  }

  lemma CutAtToken(s: string, from: nat, start: nat, end: nat)
    requires StringAt(s, from) && from <= start < end <= from + |ContentAt(s, from)|
    requires AllDelimiters(s[from..start])
    requires forall i :: start <= i < end ==> !IsDelimiter(s[i]) && s[i] != '\0'
    requires s[end] == '\0' || IsDelimiter(s[end])
    ensures var next, now := if s[end] == '\0' then end else end + 1, Cut(s, end);
            && StringAt(now, next) && StringAt(now, start) && Overwritten(s, now)
            && Tokens(ContentAt(s, from)) == [ContentAt(now, start)] + Tokens(ContentAt(now, next))
  {
    hide Tokens, ContentAt, Cut, Overwritten;
    SplitAtToken(s, from, start, end);
    CutKeeps(s, start, end);
    CutKeepsAfter(s, end, if s[end] == '\0' then end else end + 1);
  }

  /** The tokens not yet stored: the one just found and those after it. */
  ghost function Remaining(text: string, token: Option<nat>, next: nat): seq<string>
    requires StringAt(text, next) && (token.Some? ==> StringAt(text, token.value))
  {
    if token.None? then [] else [ContentAt(text, token.value)] + Tokens(ContentAt(text, next))
  }

  /** strtok_r: section 7.24.5.8 of ISO C11, with the position to go on from kept by the caller. The delimiter after
      the token is overwritten by a null character. */
  method NextToken(text: array<char>, from: nat) returns (token: Option<nat>, next: nat)
    requires StringAt(text[..], from)
    modifies text
    ensures from <= next <= text.Length && StringAt(text[..], next) && Overwritten(old(text[..]), text[..])
    ensures token.Some? ==> from < next && 0 <= token.value && StringAt(text[..], token.value)
    ensures Tokens(ContentAt(old(text[..]), from)) == Remaining(text[..], token, next)
  {
    hide Tokens, ContentAt;
    ghost var was := text[..];
    var start := SkipSpan(text, from);
    ContentFrom(was, from, start);
    if text[start] == '\0' {
      NothingLeft(was, from, start);
      return None, start;
    }
    var end := FindEnd(text, start);
    CutAtToken(was, from, start, end);
    token := Some(start);
    if text[end] == '\0' {
      next := end;
    } else {
      text[end] := '\0';
      next := end + 1;
    }
    assert text[..] == Cut(was, end);
  }

  /** The bytes stored so far, followed by those of the tokens that remain, are the whole result. */
  predicate Progress(all: Parse, stored: seq<byte>, left: seq<string>, size: nat) {
    |stored| <= size &&
    var rest := ParseTokens(left, size - |stored|);
    all == Parse(stored + rest.bytes, rest.error)
  }

  lemma ProgressStops(all: Parse, stored: seq<byte>, left: seq<string>, size: nat)
    requires Progress(all, stored, left, size)
    ensures left == [] ==> all == Parse(stored, None)
    ensures left != [] && |stored| == size ==> all == Parse(stored, Some(TooManyBytes))
    ensures left != [] && |stored| < size ==>
              match TokenByte(left[0])
              case Failure(e) => all == Parse(stored, Some(e))
              case Success(b) => Progress(all, stored + [b], left[1..], size)
  {
    hide TokenByte;
    if left != [] && |stored| < size && TokenByte(left[0]).Success? {
      var b := TokenByte(left[0]).value;
      var rest := ParseTokens(left[1..], size - |stored| - 1);
      assert stored + ([b] + rest.bytes) == stored + [b] + rest.bytes;
    }
  }

  /** The byte of a token, or the error it stops the parser with. */
  method ReadByte(word: string) returns (r: Result<byte, SelectorError>)
    ensures r == TokenByte(word)
  {
    var base := Decimal;
    if |word| >= 2 && word[..2] == "0x" {
      base := Hex;
    }
    var ul := Stoul(word, base);
    if ul == Failure(InvalidArgument) {
      return Failure(NotAByte);
    }
    if ul == Failure(OutOfRange) {
      return Failure(ExceedsInt);
    }
    if ul.value > 255 {
      return Failure(ExceedsByte);
    }
    r := Success(ul.value);
  }

  /** The buffer holds these bytes, and behind them what it held before. */
  predicate Filled(was: seq<byte>, bytes: seq<byte>, now: seq<byte>) {
    |bytes| <= |was| && now == bytes + was[|bytes|..]
  }

  /** Stores the byte of one token if there is room for it and it is one. */
  method StoreToken(word: string, buffer: array<byte>, count: nat, size: nat,
                    ghost all: Parse, ghost stored: seq<byte>, ghost was: seq<byte>, ghost rest: seq<string>)
    returns (error: Option<SelectorError>)
    requires count == |stored| <= size <= buffer.Length == |was| && Filled(was, stored, buffer[..])
    requires Progress(all, stored, [word] + rest, size)
    modifies buffer
    ensures error.Some? ==> all == Parse(stored, error) && buffer[..] == old(buffer[..])
    ensures error.None? ==>
              && count < size && Filled(was, stored + [buffer[count]], buffer[..])
              && Progress(all, stored + [buffer[count]], rest, size)
  {
    ProgressStops(all, stored, [word] + rest, size);
    assert ([word] + rest)[1..] == rest;
    hide Progress, TokenByte;
    if count >= size {
      return Some(TooManyBytes);
    }
    var read := ReadByte(word);
    if read.Failure? {
      return Some(read.error);
    }
    buffer[count] := read.value;
    error := None;
  }

  lemma RemainingIs(text: string, token: nat, next: nat)
    requires StringAt(text, next) && StringAt(text, token)
    ensures Remaining(text, Some(token), next) == [ContentAt(text, token)] + Tokens(ContentAt(text, next))
  {
  }

  lemma AllStored(all: Parse, stored: seq<byte>, text: string, next: nat, size: nat)
    requires StringAt(text, next) && Progress(all, stored, Remaining(text, None, next), size)
    ensures all == Parse(stored, None)
  {
  }

  lemma NothingStored(text: string, size: nat, was: seq<byte>)
    requires IsTerminated(text)
    ensures StringAt(text, 0) && Filled(was, [], was) && Overwritten(text, text)
    ensures Progress(ParseSelector(Content(text), size), [], Tokens(ContentAt(text, 0)), size)
  {
  }

  /** Parses a selector into a buffer with room for a number of bytes. The text is taken apart in place. */
  method ParseOsiSelector(text: array<char>, buffer: array<byte>, size: nat) returns (r: Result<nat, SelectorError>)
    requires IsTerminated(text[..]) && size <= buffer.Length
    modifies text, buffer
    ensures var p := ParseSelector(Content(old(text[..])), size);
            && r == (if p.error.None? then Success(|p.bytes|) else Failure(p.error.value))
            && |p.bytes| <= size && Filled(old(buffer[..]), p.bytes, buffer[..])
    ensures Overwritten(old(text[..]), text[..])
  {
    hide TokenByte, Tokens, Content, ContentAt, ParseSelector, IsTerminated,
         StringAt, Overwritten, Progress, Filled, Remaining;
    ghost var was, all := buffer[..], ParseSelector(Content(text[..]), size);
    ghost var stored: seq<byte> := [];
    NothingStored(text[..], size, was);
    var token, next := NextToken(text, 0);
    var count := 0;
    while token.Some?
      invariant count == |stored| <= size && Filled(was, stored, buffer[..])
      invariant next <= text.Length && StringAt(text[..], next)
                && (token.Some? ==> 0 <= token.value && StringAt(text[..], token.value))
      invariant Overwritten(old(text[..]), text[..])
      invariant Progress(all, stored, Remaining(text[..], token, next), size)
      decreases text.Length - next, token.Some?
    {
      RemainingIs(text[..], token.value, next);
      var word := ContentAt(text[..], token.value);
      var error := StoreToken(word, buffer, count, size, all, stored, was, Tokens(ContentAt(text[..], next)));
      if error.Some? {
        return Failure(error.value);
      }
      stored := stored + [buffer[count]];
      count := count + 1;
      ghost var before := text[..];
      token, next := NextToken(text, next);
      OverwrittenTwice(old(text[..]), before, text[..]);
    }
    AllStored(all, stored, text[..], next, size);
    r := Success(count);
  }
}

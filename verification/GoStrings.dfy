/** The slice of Go's standard library the edge server's parsers lean on,
    written out over plain values:
    - strings.Split / strings.Join / strings.Count for a one-character separator,
    - strconv.ParseBool,
    - strconv.ParseInt(s, 10, 32), including its clamped result on overflow,
    - the decimal rendering that fmt's %d gives an int.
    Go strings are byte strings; every separator used here is ASCII, so
    working over characters gives the same pieces. */
module GoStrings {

  /** The error a strconv parser returns: nil, a syntax error or a range error. */
  datatype NumError = NoError | ErrSyntax | ErrRange

  /** The (value, error) pair a strconv parser returns. */
  datatype Parsed<T> = Parsed(value: T, err: NumError)

  // ---------------------------------------------------------------------------
  // strings.Count, strings.Split, strings.Join
  // ---------------------------------------------------------------------------

  /** Number of occurrences of c in s. */
  function Count(s: string, c: char): (n: nat)
    ensures n <= |s|
    ensures n == 0 <==> c !in s
  {
    if |s| == 0 then 0 else (if s[0] == c then 1 else 0) + Count(s[1..], c)
  }

  /** strings.Split(s, string(c)): the pieces of s between the occurrences
      of c, in order. The empty string gives one empty piece. */
  function Split(s: string, c: char): (pieces: seq<string>)
    ensures |pieces| == Count(s, c) + 1
    ensures forall i :: 0 <= i < |pieces| ==> c !in pieces[i]
  {
    if |s| == 0 then [""]
    else if s[0] == c then [""] + Split(s[1..], c)
    else
      var rest := Split(s[1..], c);
      [[s[0]] + rest[0]] + rest[1..]
  }

  /** strings.Join(pieces, string(c)). */
  function Join(pieces: seq<string>, c: char): string
  {
    if |pieces| == 0 then ""
    else if |pieces| == 1 then pieces[0]
    else pieces[0] + [c] + Join(pieces[1..], c)
  }

  /** Joining the pieces back with the separator gives the original string. */
  lemma {:induction false} JoinSplit(s: string, c: char)
    ensures Join(Split(s, c), c) == s
  {
    if |s| > 0 {
      var rest := Split(s[1..], c);
      JoinSplit(s[1..], c);
      if s[0] == c {
        assert Split(s, c) == [""] + rest;
        assert ([""] + rest)[1..] == rest;
        assert Join(Split(s, c), c) == "" + [c] + Join(rest, c);
      } else {
        assert Split(s, c) == [[s[0]] + rest[0]] + rest[1..];
        JoinPrepend(s[0], rest, c);
      }
      assert [s[0]] + s[1..] == s;
    }
  }

  /** Prefixing the first piece with a character prefixes the join. */
  lemma JoinPrepend(x: char, pieces: seq<string>, c: char)
    requires |pieces| > 0
    ensures Join([[x] + pieces[0]] + pieces[1..], c) == [x] + Join(pieces, c)
  {
  }

  /** A piece without the separator, followed by the separator, splits off
      as exactly one piece. */
  lemma {:induction false} SplitAfterPiece(p: string, t: string, c: char)
    requires c !in p
    ensures Split(p + [c] + t, c) == [p] + Split(t, c)
  {
    if |p| == 0 {
      assert p + [c] + t == [c] + t;
      assert ([c] + t)[1..] == t;
    } else {
      var s := p + [c] + t;
      assert s[0] == p[0];
      assert s[1..] == p[1..] + [c] + t;
      SplitAfterPiece(p[1..], t, c);
      var rest := Split(s[1..], c);
      assert rest == [p[1..]] + Split(t, c);
      assert [p[0]] + p[1..] == p;
    }
  }

  /** A string without the separator is a single piece. */
  lemma {:induction false} SplitNoSeparator(p: string, c: char)
    requires c !in p
    ensures Split(p, c) == [p]
  {
    if |p| > 0 {
      SplitNoSeparator(p[1..], c);
      assert [p[0]] + p[1..] == p;
    }
  }

  /** Four separator-free fields joined and split again. */
  lemma SplitFour(a: string, b: string, d: string, e: string, c: char)
    requires c !in a && c !in b && c !in d && c !in e
    ensures Split(Join([a, b, d, e], c), c) == [a, b, d, e]
  {
    var pieces := [a, b, d, e];
    assert forall i :: 0 <= i < |pieces| ==> c !in pieces[i] by {
      assert pieces[0] == a && pieces[1] == b && pieces[2] == d && pieces[3] == e;
    }
    SplitJoin(pieces, c);
  }

  /** Splitting a join of separator-free pieces gives the pieces back. */
  lemma {:induction false} SplitJoin(pieces: seq<string>, c: char)
    requires |pieces| > 0
    requires forall i :: 0 <= i < |pieces| ==> c !in pieces[i]
    ensures Split(Join(pieces, c), c) == pieces
  {
    if |pieces| == 1 {
      SplitNoSeparator(pieces[0], c);
    } else {
      SplitJoin(pieces[1..], c);
      SplitAfterPiece(pieces[0], Join(pieces[1..], c), c);
      assert [pieces[0]] + pieces[1..] == pieces;
    }
  }

  // ---------------------------------------------------------------------------
  // strconv.ParseBool
  // ---------------------------------------------------------------------------

  /** The spellings strconv.ParseBool reads as true and as false. */
  const TrueWords: set<string> := {"1", "t", "T", "TRUE", "true", "True"}
  const FalseWords: set<string> := {"0", "f", "F", "FALSE", "false", "False"}

  /** strconv.ParseBool: one of the twelve literals, else false with a
      syntax error. */
  function ParseBool(s: string): (r: Parsed<bool>)
    ensures r.err == NoError <==> s in TrueWords + FalseWords
    ensures r.err != NoError ==> r.err == ErrSyntax && !r.value
    ensures r.value <==> s in TrueWords
  {
    if s in TrueWords then Parsed(true, NoError)
    else if s in FalseWords then Parsed(false, NoError)
    else Parsed(false, ErrSyntax)
  }

  /** strconv.FormatBool. */
  function FormatBool(b: bool): string
  {
    if b then "true" else "false"
  }

  /** ParseBool reads back what FormatBool writes. */
  lemma ParseFormatBool(b: bool)
    ensures ParseBool(FormatBool(b)) == Parsed(b, NoError)
  {
  }

  // ---------------------------------------------------------------------------
  // Decimal digits
  // ---------------------------------------------------------------------------

  const MaxUint32: nat := 0xFFFF_FFFF
  const MaxInt32: int := 0x7FFF_FFFF
  const MinInt32: int := -0x8000_0000

  predicate IsDigit(ch: char)
  {
    '0' <= ch <= '9'
  }

  predicate AllDigits(s: string)
  {
    forall i :: 0 <= i < |s| ==> IsDigit(s[i])
  }

  function DigitValue(ch: char): (d: nat)
    requires IsDigit(ch)
    ensures d < 10
  {
    ch as int - '0' as int
  }

  function DigitChar(d: nat): (ch: char)
    requires d < 10
    ensures IsDigit(ch) && DigitValue(ch) == d
  {
    (d + '0' as int) as char
  }

  /** The number a string of decimal digits denotes (most significant first). */
  function DecimalValue(s: string): nat
    requires AllDigits(s)
  {
    if |s| == 0 then 0 else DecimalValue(s[..|s| - 1]) * 10 + DigitValue(s[|s| - 1])
  }

  /** The shortest decimal rendering of a natural number. */
  function NatToDecimal(n: nat): (s: string)
    ensures |s| > 0 && AllDigits(s)
  {
    if n < 10 then [DigitChar(n)] else NatToDecimal(n / 10) + [DigitChar(n % 10)]
  }

  /** fmt's %d for an int: a minus sign for negatives, then the digits. */
  function Itoa(n: int): (s: string)
    ensures |s| > 0
  {
    if n < 0 then "-" + NatToDecimal(-n) else NatToDecimal(n)
  }

  /** The rendering holds only digits and at most a leading minus sign, so
      it never contains a field or list separator. */
  lemma ItoaHasNoSeparator(n: int, c: char)
    requires c != '-' && !IsDigit(c)
    ensures c !in Itoa(n)
  {
  }

  /** NatToDecimal renders exactly the number it is given. */
  lemma {:induction false} DecimalValueOfRendering(n: nat)
    ensures DecimalValue(NatToDecimal(n)) == n
  {
    if n >= 10 {
      DecimalValueOfRendering(n / 10);
      var s := NatToDecimal(n);
      assert s[..|s| - 1] == NatToDecimal(n / 10);
    }
  }

  /** A longer prefix of a digit string never denotes a smaller number. */
  lemma {:induction false} PrefixValueMonotone(s: string, i: nat, j: nat)
    requires AllDigits(s) && i <= j <= |s|
    ensures AllDigits(s[..i]) && AllDigits(s[..j])
    ensures DecimalValue(s[..i]) <= DecimalValue(s[..j])
    decreases j - i
  {
    if i < j {
      PrefixValueMonotone(s, i, j - 1);
      assert s[..j][..j - 1] == s[..j - 1];
    }
  }

  // ---------------------------------------------------------------------------
  // strconv.ParseUint(s, 10, 32) and strconv.ParseInt(s, 10, 32)
  // ---------------------------------------------------------------------------

  /** The digit loop of strconv.ParseUint in base 10 with a 32-bit limit,
      from position i with accumulated value n. A character that is not a
      digit is a syntax error; a value past MaxUint32 is a range error with
      value MaxUint32, reported as soon as the prefix read so far overflows,
      before any later character is looked at. */
  function ScanDigits(s: string, i: nat, n: nat): (r: Parsed<nat>)
    requires i <= |s| && n <= MaxUint32
    ensures r.value <= MaxUint32
    ensures r.err == NoError ==> AllDigits(s[i..])
    ensures r.err == ErrSyntax ==> r.value == 0 && !AllDigits(s[i..])
    ensures r.err == ErrRange ==> r.value == MaxUint32
    decreases |s| - i
  {
    if i == |s| then Parsed(n, NoError)
    else if !IsDigit(s[i]) then Parsed(0, ErrSyntax)
    else if n * 10 + DigitValue(s[i]) > MaxUint32 then Parsed(MaxUint32, ErrRange)
    else
      var r := ScanDigits(s, i + 1, n * 10 + DigitValue(s[i]));
      assert s[i..] == [s[i]] + s[i + 1..];
      r
  }

  /** The length of the run of digits s starts with. */
  function DigitRun(s: string): (k: nat)
    ensures k <= |s| && AllDigits(s[..k])
    ensures k < |s| ==> !IsDigit(s[k])
  {
    if |s| == 0 || !IsDigit(s[0]) then 0
    else
      var k := 1 + DigitRun(s[1..]);
      assert s[..k] == [s[0]] + s[1..][..k - 1];
      k
  }

  /** The number the leading digits of s denote: all ParseUint has read
      when it meets the first non-digit. */
  function LeadingValue(s: string): nat
  {
    DecimalValue(s[..DigitRun(s)])
  }

  /** strconv.ParseUint(s, 10, 32). It reads digits from the left and
      reports a range error (clamped to MaxUint32) as soon as they overflow,
      so an overflowing digit run is a range error even when a non-digit
      follows. Otherwise a syntax error exactly when s is empty or holds a
      non-digit, and else the value s denotes. */
  function ParseUint32(s: string): (r: Parsed<nat>)
    ensures r.value <= MaxUint32
    ensures r.err == ErrRange <==> LeadingValue(s) > MaxUint32
    ensures r.err == ErrSyntax <==> LeadingValue(s) <= MaxUint32 && (|s| == 0 || DigitRun(s) < |s|)
    ensures r.err == NoError ==> AllDigits(s) && r.value == DecimalValue(s)
    ensures r.err == ErrSyntax ==> r.value == 0
    ensures r.err == ErrRange ==> r.value == MaxUint32
  {
    if |s| == 0 then Parsed(0, ErrSyntax)
    else
      var k := DigitRun(s);
      var t := s[..k];
      ScanDigitRun(t);
      if k < |s| then ScanDigitsStopsAt(s, k, 0, 0); ScanDigits(s, 0, 0)
      else
        assert t == s;
        ScanDigits(s, 0, 0)
  }

  /** Scanning a whole digit string reads its value, or overflows exactly
      when that value is past MaxUint32. */
  lemma ScanDigitRun(t: string)
    requires AllDigits(t)
    ensures ScanDigits(t, 0, 0) == if DecimalValue(t) <= MaxUint32 then Parsed(DecimalValue(t), NoError)
                                   else Parsed(MaxUint32, ErrRange)
  {
    assert t[..0] == "";
    if DecimalValue(t) <= MaxUint32 {
      ScanDigitsValue(t, 0);
    } else {
      ScanDigitsOverflow(t, 0);
    }
  }

  /** Scanning up to the first non-digit, at k, gives what scanning the
      digit run alone gives, except that finishing the run without
      overflow meets the non-digit: a syntax error. */
  lemma {:induction false} ScanDigitsStopsAt(s: string, k: nat, i: nat, n: nat)
    requires k < |s| && AllDigits(s[..k]) && !IsDigit(s[k])
    requires i <= k && n <= MaxUint32
    ensures var t := ScanDigits(s[..k], i, n);
            ScanDigits(s, i, n) == if t.err == NoError then Parsed(0, ErrSyntax) else t
    decreases k - i
  {
    if i < k {
      assert IsDigit(s[..k][i]);
      if n * 10 + DigitValue(s[i]) <= MaxUint32 {
        ScanDigitsStopsAt(s, k, i + 1, n * 10 + DigitValue(s[i]));
      }
    }
  }

  /** The digits ParseInt reads after its optional leading sign. */
  function Magnitude(s: string): string
  {
    if |s| > 0 && (s[0] == '+' || s[0] == '-') then s[1..] else s
  }

  /** Whether s is a well-formed base-10 integer: an optional sign and at
      least one digit. */
  predicate WellFormedInt(s: string)
  {
    |Magnitude(s)| > 0 && AllDigits(Magnitude(s))
  }

  /** The integer a well-formed s denotes, sign included. */
  function SignedValue(s: string): int
    requires WellFormedInt(s)
  {
    if s[0] == '-' then -(DecimalValue(Magnitude(s)) as int) else DecimalValue(Magnitude(s))
  }

  /** strconv.ParseInt(s, 10, 32): an optional sign, then ParseUint. A
      syntax error (value 0) when ParseUint's is one: s is not well formed
      and its leading digits do not overflow. A well-formed s within the
      int32 range gives the value it denotes; anything else is a range
      error whose value is the int32 bound on the side of its sign. */
  function ParseInt32(s: string): (r: Parsed<int>)
    ensures r.err == ErrSyntax <==> !WellFormedInt(s) && LeadingValue(Magnitude(s)) <= MaxUint32
    ensures r.err == ErrSyntax ==> r.value == 0
    ensures r.err == NoError <==> WellFormedInt(s) && MinInt32 <= SignedValue(s) <= MaxInt32
    ensures r.err == NoError ==> r.value == SignedValue(s)
    ensures r.err == ErrRange ==> |s| > 0 && r.value == (if s[0] == '-' then MinInt32 else MaxInt32)
  {
    if |s| == 0 then Parsed(0, ErrSyntax)
    else
      var neg := s[0] == '-';
      var m := Magnitude(s);
      assert m[..|m|] == m;
      var u := ParseUint32(m);
      if u.err == ErrSyntax then Parsed(0, ErrSyntax)
      else if !neg && u.value >= MaxInt32 + 1 then Parsed(MaxInt32, ErrRange)
      else if neg && u.value > MaxInt32 + 1 then Parsed(MinInt32, ErrRange)
      else
        var v: int := if neg then -(u.value as int) else u.value as int;
        Parsed(v, NoError)
  }

  /** Scanning a digit string whose value fits reads exactly that value. */
  lemma {:induction false} ScanDigitsValue(s: string, i: nat)
    requires AllDigits(s) && i <= |s| && DecimalValue(s) <= MaxUint32
    ensures AllDigits(s[..i])
    ensures DecimalValue(s[..i]) <= MaxUint32
    ensures ScanDigits(s, i, DecimalValue(s[..i])) == Parsed(DecimalValue(s), NoError)
    decreases |s| - i
  {
    PrefixValueMonotone(s, i, |s|);
    assert s[..|s|] == s;
    if i < |s| {
      PrefixValueMonotone(s, i + 1, |s|);
      assert s[..i + 1][..i] == s[..i];
      assert DecimalValue(s[..i + 1]) == DecimalValue(s[..i]) * 10 + DigitValue(s[i]);
      ScanDigitsValue(s, i + 1);
    }
  }

  /** Scanning a digit string whose value does not fit is a range error. */
  lemma {:induction false} ScanDigitsOverflow(s: string, i: nat)
    requires AllDigits(s) && i <= |s| && DecimalValue(s) > MaxUint32
    requires AllDigits(s[..i]) && DecimalValue(s[..i]) <= MaxUint32
    ensures ScanDigits(s, i, DecimalValue(s[..i])) == Parsed(MaxUint32, ErrRange)
    decreases |s| - i
  {
    assert s[..|s|] == s;
    if i < |s| {
      assert s[..i + 1][..i] == s[..i];
      PrefixValueMonotone(s, i + 1, |s|);
      assert DecimalValue(s[..i + 1]) == DecimalValue(s[..i]) * 10 + DigitValue(s[i]);
      if DecimalValue(s[..i + 1]) <= MaxUint32 {
        ScanDigitsOverflow(s, i + 1);
      }
    }
  }

  /** ParseInt reads back every int32 that %d renders. */
  lemma ParseInt32Itoa(n: int)
    requires MinInt32 <= n <= MaxInt32
    ensures ParseInt32(Itoa(n)) == Parsed(n, NoError)
  {
    var digits := NatToDecimal(if n < 0 then -n else n);
    DecimalValueOfRendering(if n < 0 then -n else n);
    if n < 0 {
      assert Itoa(n)[0] == '-' && Itoa(n)[1..] == digits;
    } else {
      assert IsDigit(digits[0]);
    }
    assert Magnitude(Itoa(n)) == digits;
  }

  /** An unsigned digit string above MaxInt32 is a range error clamped to
      MaxInt32, whether or not it also exceeds the 32-bit unsigned range. */
  lemma ParseInt32Overflow(s: string)
    requires |s| > 0 && AllDigits(s) && DecimalValue(s) > MaxInt32
    ensures ParseInt32(s) == Parsed(MaxInt32, ErrRange)
  {
  }
}

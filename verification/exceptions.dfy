/** The library's exception classes as values, the `what()` strings their
    constructors build, and the decimal rendering `BadIndex` relies on. */
module Exceptions {
  import opened Basics

  /** Every exception object the modelled code can throw.  `what` is the
      string `what()` returns; classes with an error number carry it too.
      `OutOfRange` is the standard library's `std::out_of_range`, thrown by
      `vector::at`. */
  datatype Exception =
    | BadConversion(what: string, typeName: string, data: string, retrieved: size_t, actualSize: size_t)
    | BadFieldName(what: string)
    | BadIndex(what: string)
    | BadQuery(what: string, errnum: int)
    | ConnectionFailed(what: string, errnum: int)
    | DBSelectionFailed(what: string, errnum: int)
    | MutexFailed(what: string)
    | TypeLookupFailed(what: string)
    | UseQueryError(what: string)
    | OutOfRange(what: string)

  /** The result of a C++ call that may throw: it either returns a value or
      propagates an exception. */
  datatype Outcome<+T> = Returned(value: T) | Thrown(error: Exception) {
    predicate IsFailure() { Thrown? }
    function PropagateFailure<U>(): Outcome<U>
      requires Thrown?
    {
      Thrown(error)
    }
    function Extract(): T
      requires Returned?
    {
      value
    }
  }

  // ---------------------------------------------------------------------
  // Decimal rendering, as `std::ostream << int` produces it
  // ---------------------------------------------------------------------

  predicate IsDigit(c: char) {
    '0' <= c <= '9'
  }

  predicate AllDigits(s: string) {
    forall i :: 0 <= i < |s| ==> IsDigit(s[i])
  }

  function DigitChar(d: nat): (c: char)
    requires d < 10
    ensures IsDigit(c)
    ensures c as int - '0' as int == d
  {
    "0123456789"[d]
  }

  function DigitValue(c: char): nat
    requires IsDigit(c)
  {
    c as int - '0' as int
  }

  /** Decimal digits of `n`, most significant first, no leading zeros. */
  function NatToString(n: nat): (s: string)
    ensures 1 <= |s|
    ensures AllDigits(s)
    ensures |s| > 1 ==> s[0] != '0'
    decreases n
  {
    if n < 10 then [DigitChar(n)] else NatToString(n / 10) + [DigitChar(n % 10)]
  }

  /** `std::ostream << i` for an integer `i`: a minus sign for negatives. */
  function IntToString(i: int): (s: string)
    ensures 1 <= |s|
    ensures i < 0 <==> s[0] == '-'
  {
    if i < 0 then "-" + NatToString(-i) else NatToString(i)
  }

  /** Reference reading of a string of decimal digits. */
  function DigitsValue(s: string): nat
    requires AllDigits(s)
    decreases |s|
  {
    if s == [] then 0 else DigitsValue(s[..|s| - 1]) * 10 + DigitValue(s[|s| - 1])
  }

  /** Reference reading of an optionally signed decimal numeral. */
  function ParseInt(s: string): Nullable<int> {
    if |s| >= 2 && s[0] == '-' && AllDigits(s[1..]) then Ptr(0 - DigitsValue(s[1..]) as int)
    else if |s| >= 1 && AllDigits(s) then Ptr(DigitsValue(s) as int)
    else Null
  }

  /** The longest prefix of `s` made of digits. */
  function LeadingDigits(s: string): (d: string)
    ensures AllDigits(d)
    ensures d <= s
    ensures |d| < |s| ==> !IsDigit(s[|d|])
    decreases |s|
  {
    if s != [] && IsDigit(s[0]) then [s[0]] + LeadingDigits(s[1..]) else []
  }

  lemma {:induction false} NatToStringRoundTrip(n: nat)
    ensures DigitsValue(NatToString(n)) == n
    decreases n
  {
    if n >= 10 {
      var s := NatToString(n);
      assert s[..|s| - 1] == NatToString(n / 10);
      NatToStringRoundTrip(n / 10);
    }
  }

  /** Rendering then parsing an integer gives it back. */
  lemma IntToStringRoundTrip(i: int)
    ensures ParseInt(IntToString(i)) == Ptr(i)
  {
    if i < 0 {
      SignedRoundTrip(-i);
    } else {
      var s := NatToString(i);
      assert IsDigit(s[0]);
      NatToStringRoundTrip(i);
    }
  }

  /** A minus sign before the digits of `n` reads back as `-n`. */
  lemma SignedRoundTrip(n: nat)
    ensures ParseInt("-" + NatToString(n)) == Ptr(-(n as int))
  {
    var digits := NatToString(n);
    var s := "-" + digits;
    assert s[1..] == digits;
    NatToStringRoundTrip(n);
  }

  lemma {:induction false} LeadingDigitsOfDigitsThen(d: string, rest: string)
    requires AllDigits(d)
    requires rest == [] || !IsDigit(rest[0])
    ensures LeadingDigits(d + rest) == d
    decreases |d|
  {
    if d != [] {
      assert (d + rest)[1..] == d[1..] + rest;
      LeadingDigitsOfDigitsThen(d[1..], rest);
    }
  }

  // ---------------------------------------------------------------------
  // Constructors that build `what()` strings
  // ---------------------------------------------------------------------

  const BAD_CONVERSION_PREFIX: string := "Bad type conversion: \""
  const BAD_CONVERSION_MIDDLE: string := "\" incompatible with \""
  const BAD_CONVERSION_SUFFIX: string := "\" type"

  /** How the message renders the data: a null `d` becomes `<NULL>`. */
  function Rendered(d: Nullable<string>): string {
    if d.Ptr? then d.value else "<NULL>"
  }

  /** The message `BadConversion(tn, d, r, a)` accumulates: it opens with
      the fixed prefix and closes with the type name in quotes. */
  function BadConversionWhat(tn: string, d: Nullable<string>): (w: string)
    ensures BAD_CONVERSION_PREFIX <= w
    ensures |w| >= |BAD_CONVERSION_MIDDLE + tn + BAD_CONVERSION_SUFFIX|
    ensures w[|w| - |BAD_CONVERSION_MIDDLE + tn + BAD_CONVERSION_SUFFIX|..] == BAD_CONVERSION_MIDDLE + tn + BAD_CONVERSION_SUFFIX
  {
    var tail := BAD_CONVERSION_MIDDLE + tn + BAD_CONVERSION_SUFFIX;
    var w := BAD_CONVERSION_PREFIX + Rendered(d) + tail;
    assert w == (BAD_CONVERSION_PREFIX + Rendered(d)) + tail;
    w
  }

  /** The text of `s` before its first double quote (all of `s` if none). */
  function UpToQuote(s: string): (p: string)
    ensures p <= s && '"' !in p
    ensures |p| < |s| ==> s[|p|] == '"'
  {
    if s == [] || s[0] == '"' then []
    else [s[0]] + UpToQuote(s[1..])
  }

  /** Reads the data and the type name back from a `BadConversion`
      message: the data runs to the first double quote. */
  function ParseBadConversion(w: string): Nullable<(string, string)> {
    if !(BAD_CONVERSION_PREFIX <= w) then Null
    else
      var rest := w[|BAD_CONVERSION_PREFIX|..];
      var d := UpToQuote(rest);
      var after := rest[|d|..];
      if !(BAD_CONVERSION_MIDDLE <= after) then Null
      else
        var tail := after[|BAD_CONVERSION_MIDDLE|..];
        if |tail| < |BAD_CONVERSION_SUFFIX| || tail[|tail| - |BAD_CONVERSION_SUFFIX|..] != BAD_CONVERSION_SUFFIX then Null
        else Ptr((d, tail[..|tail| - |BAD_CONVERSION_SUFFIX|]))
  }

  /** A quote-free prefix followed by a quote is exactly what
      `UpToQuote` returns. */
  lemma {:induction false} UpToQuoteStopsAtQuote(d: string, x: string)
    requires '"' !in d && x != [] && x[0] == '"'
    ensures UpToQuote(d + x) == d
    decreases |d|
  {
    if d == [] {
      assert d + x == x;
    } else {
      assert (d + x)[0] == d[0];
      assert (d + x)[1..] == d[1..] + x;
      UpToQuoteStopsAtQuote(d[1..], x);
      assert [d[0]] + d[1..] == d;
    }
  }

  /** The message determines the data and the type name it was built
      from, as long as the data holds no double quote; a null data
      pointer reads back as the text `<NULL>`. */
  lemma BadConversionRoundTrip(tn: string, d: Nullable<string>)
    requires '"' !in Rendered(d)
    ensures ParseBadConversion(BadConversionWhat(tn, d)) == Ptr((Rendered(d), tn))
    ensures BadConversionWhat(tn, Null) == BadConversionWhat(tn, Ptr("<NULL>"))
  {
    var x := Rendered(d);
    var w := BadConversionWhat(tn, d);
    var rest := x + (BAD_CONVERSION_MIDDLE + (tn + BAD_CONVERSION_SUFFIX));
    assert w == BAD_CONVERSION_PREFIX + rest;
    DropPrefix(BAD_CONVERSION_PREFIX, rest);
    var after := BAD_CONVERSION_MIDDLE + (tn + BAD_CONVERSION_SUFFIX);
    assert after[0] == '"';
    UpToQuoteStopsAtQuote(x, after);
    DropPrefix(x, after);
    DropPrefix(BAD_CONVERSION_MIDDLE, tn + BAD_CONVERSION_SUFFIX);
    var tail := tn + BAD_CONVERSION_SUFFIX;
    assert tail[|tail| - |BAD_CONVERSION_SUFFIX|..] == BAD_CONVERSION_SUFFIX;
    assert tail[..|tail| - |BAD_CONVERSION_SUFFIX|] == tn;
  }

  /** `BadConversion(tn, d, r, a)`.  The member `data` is built from `d`
      before the null test in the body, so a null `d` is not a defined call. */
  function NewBadConversion(tn: string, d: Nullable<string>, r: size_t, a: size_t): (e: Exception)
    requires d.Ptr?
    ensures e.BadConversion? && e.typeName == tn && e.data == d.value
    ensures e.retrieved == r && e.actualSize == a
    ensures e.what == BadConversionWhat(tn, d)
    ensures '"' !in d.value ==> ParseBadConversion(e.what) == Ptr((e.data, e.typeName))
  {
    var e := BadConversion(BadConversionWhat(tn, d), tn, d.value, r, a);
    if '"' in d.value then e
    else BadConversionRoundTrip(tn, d); e
  }

  /** `BadConversion(w, tn, d, r, a)`: a finished message kept as given. */
  function NewBadConversionWith(w: string, tn: string, d: string, r: size_t, a: size_t): (e: Exception)
    ensures e.BadConversion? && e.what == w && e.typeName == tn && e.data == d
    ensures e.retrieved == r && e.actualSize == a
  {
    BadConversion(w, tn, d, r, a)
  }

  /** Single-argument `BadConversion(w = "")`: every other member defaulted. */
  function NewBadConversionMessage(w: string := ""): (e: Exception)
    ensures e.BadConversion? && e.what == w
    ensures e.typeName == "unknown" && e.data == "" && e.retrieved == 0 && e.actualSize == 0
  {
    BadConversion(w, "unknown", "", 0, 0)
  }

  const BAD_FIELD_NAME_PREFIX: string := "Unknown field name: "

  function NewBadFieldName(f: string): (e: Exception)
    ensures e.BadFieldName?
    ensures e.what == BAD_FIELD_NAME_PREFIX + f
  {
    BadFieldName(BAD_FIELD_NAME_PREFIX + f)
  }

  /** Recovers the field name from a `BadFieldName` message. */
  function FieldOfBadFieldName(w: string): Nullable<string> {
    if BAD_FIELD_NAME_PREFIX <= w then Ptr(w[|BAD_FIELD_NAME_PREFIX|..]) else Null
  }

  /** The field name is recoverable from the message: the message determines it. */
  lemma BadFieldNameRoundTrip(f: string)
    ensures FieldOfBadFieldName(NewBadFieldName(f).what) == Ptr(f)
  {
    var w := NewBadFieldName(f).what;
    assert w[..|BAD_FIELD_NAME_PREFIX|] == BAD_FIELD_NAME_PREFIX;
    assert w[|BAD_FIELD_NAME_PREFIX|..] == f;
  }

  /** `BadIndex(w, b, m)`: "Index b on w out of range, max legal index is m". */
  function NewBadIndex(what: string, badIndex: int, maxIndex: int): (e: Exception)
    ensures e.BadIndex?
    ensures e.what == BAD_INDEX_PREFIX + IntToString(badIndex) + " on " + what
                      + " out of range, max legal index is " + IntToString(maxIndex)
  {
    BadIndex(BAD_INDEX_PREFIX + IntToString(badIndex) + " on " + what
             + " out of range, max legal index is " + IntToString(maxIndex))
  }

  /** Reads the optionally signed numeral at the front of `s`. */
  function LeadingNumeral(s: string): Nullable<int> {
    if s != [] && s[0] == '-' then ParseInt("-" + LeadingDigits(s[1..]))
    else ParseInt(LeadingDigits(s))
  }

  /** A rendered integer followed by a non-digit reads back as that integer. */
  lemma NumeralThenText(i: int, tail: string)
    requires tail == [] || !IsDigit(tail[0])
    ensures LeadingNumeral(IntToString(i) + tail) == Ptr(i)
  {
    var s := IntToString(i) + tail;
    IntToStringRoundTrip(i);
    if i < 0 {
      var digits := NatToString(-i);
      assert s == "-" + (digits + tail);
      assert s[1..] == digits + tail;
      LeadingDigitsOfDigitsThen(digits, tail);
      assert "-" + digits == IntToString(i);
    } else {
      var digits := NatToString(i);
      assert IsDigit(digits[0]);
      LeadingDigitsOfDigitsThen(digits, tail);
    }
  }

  const BAD_INDEX_PREFIX: string := "Index "

  /** The index a `BadIndex` message reports, read back from the text. */
  function BadIndexNumber(w: string): Nullable<int> {
    if BAD_INDEX_PREFIX <= w then LeadingNumeral(w[|BAD_INDEX_PREFIX|..]) else Null
  }

  /** Dropping a prefix from a concatenation leaves the rest. */
  lemma DropPrefix(p: string, x: string)
    ensures p <= p + x && (p + x)[|p|..] == x
  {
  }

  /** The bad index can be read back from a `BadIndex` message. */
  lemma BadIndexNamesIndex(what: string, badIndex: int, maxIndex: int)
    ensures BadIndexNumber(NewBadIndex(what, badIndex, maxIndex).what) == Ptr(badIndex)
  {
    var digits := IntToString(badIndex);
    var tail := " on " + what + " out of range, max legal index is " + IntToString(maxIndex);
    assert tail[0] == ' ';
    assert NewBadIndex(what, badIndex, maxIndex).what == BAD_INDEX_PREFIX + (digits + tail);
    DropPrefix(BAD_INDEX_PREFIX, digits + tail);
    NumeralThenText(badIndex, tail);
  }

  /** Classes whose constructor takes `(w = "", e = 0)`. */
  function NewBadQuery(w: string := "", e: int := 0): (x: Exception)
    ensures x.BadQuery? && x.what == w && ErrNum(x) == e
  {
    BadQuery(w, e)
  }

  function NewConnectionFailed(w: string := "", e: int := 0): (x: Exception)
    ensures x.ConnectionFailed? && x.what == w && ErrNum(x) == e
  {
    ConnectionFailed(w, e)
  }

  function NewDBSelectionFailed(w: string := "", e: int := 0): (x: Exception)
    ensures x.DBSelectionFailed? && x.what == w && ErrNum(x) == e
  {
    DBSelectionFailed(w, e)
  }

  /** `MutexFailed(w = "lock failed")`. */
  function NewMutexFailed(w: string := "lock failed"): (x: Exception)
    ensures x.MutexFailed? && x.what == w
  {
    MutexFailed(w)
  }

  /** `errnum()` of the three classes that carry one. */
  function ErrNum(x: Exception): int
    requires x.BadQuery? || x.ConnectionFailed? || x.DBSelectionFailed?
  {
    x.errnum
  }

  /** What the default arguments supply: a message without an error
      number gets error number 0, a constructor called with nothing gets
      an empty message, except `MutexFailed`, which says `lock failed`. */
  lemma DefaultArguments(w: string)
    ensures ErrNum(NewBadQuery(w)) == 0 && ErrNum(NewConnectionFailed(w)) == 0
            && ErrNum(NewDBSelectionFailed(w)) == 0
    ensures NewBadQuery() == NewBadQuery("", 0) && NewConnectionFailed() == NewConnectionFailed("", 0)
            && NewDBSelectionFailed() == NewDBSelectionFailed("", 0)
    ensures NewBadConversionMessage().what == "" && NewMutexFailed().what == "lock failed"
  {
  }
}

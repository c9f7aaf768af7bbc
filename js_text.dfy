/**
 * The JavaScript string operations the recipe listing relies on:
 * `String.prototype.trim`, `split(",")`, `Array.prototype.join(",")`,
 * `parseInt(s, 10)` and `Number.prototype.toString()` on integers.
 */
module JsText {
  import opened Wrappers

  /** WhiteSpace and LineTerminator code points of ECMA-262: the characters
      that `trim` removes and that `parseInt` skips before the number. */
  predicate IsWhitespace(c: char) {
    || c == '\t' || c == '\n' || c == '\U{000B}' || c == '\U{000C}' || c == '\r'
    || c == ' ' || c == '\U{00A0}' || c == '\U{1680}'
    || ('\U{2000}' <= c <= '\U{200A}')
    || c == '\U{2028}' || c == '\U{2029}' || c == '\U{202F}' || c == '\U{205F}'
    || c == '\U{3000}' || c == '\U{FEFF}'
  }

  predicate AllWhitespace(s: string) {
    forall i :: 0 <= i < |s| ==> IsWhitespace(s[i])
  }

  /** Drops leading whitespace. */
  function TrimStart(s: string): (r: string)
    ensures |r| <= |s|
    decreases |s|
  {
    if s != [] && IsWhitespace(s[0]) then TrimStart(s[1..]) else s
  }

  /** What `TrimStart` leaves is a suffix of `s` that does not start with
      whitespace, and what it dropped is all whitespace. */
  lemma {:induction false} TrimStartSpec(s: string)
    ensures var r := TrimStart(s);
      && r == s[|s| - |r|..]
      && AllWhitespace(s[..|s| - |r|])
      && (r != [] ==> !IsWhitespace(r[0]))
    decreases |s|
  {
    if s != [] && IsWhitespace(s[0]) {
      TrimStartSpec(s[1..]);
      var r := TrimStart(s[1..]);
      assert s[..|s| - |r|] == [s[0]] + s[1..][..|s| - 1 - |r|];
    }
  }

  /** Drops trailing whitespace. */
  function TrimEnd(s: string): (r: string)
    ensures |r| <= |s|
    decreases |s|
  {
    if s != [] && IsWhitespace(s[|s| - 1]) then TrimEnd(s[..|s| - 1]) else s
  }

  /** What `TrimEnd` leaves is a prefix of `s` that does not end with
      whitespace, and what it dropped is all whitespace. */
  lemma {:induction false} TrimEndSpec(s: string)
    ensures var r := TrimEnd(s);
      && r == s[..|r|]
      && AllWhitespace(s[|r|..])
      && (r != [] ==> !IsWhitespace(r[|r| - 1]))
    decreases |s|
  {
    if s != [] && IsWhitespace(s[|s| - 1]) {
      TrimEndSpec(s[..|s| - 1]);
      var r := TrimEnd(s[..|s| - 1]);
      assert s[|r|..] == s[..|s| - 1][|r|..] + [s[|s| - 1]];
    }
  }

  /** `s.trim()`: the part of `s` between its leading and trailing whitespace. */
  function Trim(s: string): string {
    TrimEnd(TrimStart(s))
  }

  /** The trimmed text is empty exactly when `s` is all whitespace, and
      otherwise starts and ends with a non-whitespace character. */
  lemma TrimSpec(s: string)
    ensures var r := Trim(s);
      && (r == [] <==> AllWhitespace(s))
      && (r != [] ==> !IsWhitespace(r[0]) && !IsWhitespace(r[|r| - 1]))
  {
    var t := TrimStart(s);
    TrimStartSpec(s);
    TrimEndSpec(t);
    var r := TrimEnd(t);
    if r == [] {
      assert s == s[..|s| - |t|] + t;
    } else {
      assert r[0] == t[0];
    }
  }

  /** What `trim` removes is whitespace on both sides of the result. */
  lemma TrimIsInfix(s: string)
    ensures var i := |s| - |TrimStart(s)|;
      var r := Trim(s);
      && i + |r| <= |s| && r == s[i..i + |r|]
      && AllWhitespace(s[..i]) && AllWhitespace(s[i + |r|..])
  {
    var t := TrimStart(s);
    TrimStartSpec(s);
    TrimEndSpec(t);
    var r := TrimEnd(t);
    var i := |s| - |t|;
    assert t == s[i..];
    assert r == t[..|r|];
    assert r == s[i..i + |r|];
    assert s[i + |r|..] == t[|r|..];
  }

  lemma TrimIdempotent(s: string)
    ensures Trim(Trim(s)) == Trim(s)
  {
    var r := Trim(s);
    TrimSpec(s);
    assert TrimStart(r) == r;
    assert TrimEnd(r) == r;
  }

  /** `pieces.join(sep)`; an empty array joins to the empty string. */
  function Join(pieces: seq<string>, sep: char): string
  {
    if |pieces| == 0 then ""
    else if |pieces| == 1 then pieces[0]
    else pieces[0] + [sep] + Join(pieces[1..], sep)
  }

  /** `s.split(sep)` for a one-character separator; there is always at
      least one piece (the empty string splits into `[""]`). */
  function Split(s: string, sep: char): (pieces: seq<string>)
    ensures |pieces| >= 1
    decreases |s|
  {
    if s == [] then [""]
    else if s[0] == sep then [""] + Split(s[1..], sep)
    else
      var rest := Split(s[1..], sep);
      [[s[0]] + rest[0]] + rest[1..]
  }

  /** No piece holds the separator, and joining the pieces gives `s` back. */
  lemma {:induction false} SplitSpec(s: string, sep: char)
    ensures var pieces := Split(s, sep);
      && (forall i :: 0 <= i < |pieces| ==> sep !in pieces[i])
      && Join(pieces, sep) == s
    decreases |s|
  {
    if s != [] {
      SplitSpec(s[1..], sep);
      var rest := Split(s[1..], sep);
      if s[0] == sep {
        assert [sep] + s[1..] == s;
      } else {
        var pieces := [[s[0]] + rest[0]] + rest[1..];
        assert pieces[1..] == rest[1..];
        assert |rest| == 1 ==> Join(pieces, sep) == [s[0]] + Join(rest, sep);
        assert |rest| > 1 ==> Join(pieces, sep) == [s[0]] + (rest[0] + [sep] + Join(rest[1..], sep));
        forall i | 0 <= i < |pieces|
          ensures sep !in pieces[i]
        {
          if i > 0 {
            assert pieces[i] == rest[i];
          }
        }
      }
    }
  }

  lemma {:induction false} SplitNoSeparator(a: string, sep: char)
    requires sep !in a
    ensures Split(a, sep) == [a]
    decreases |a|
  {
    if a != [] {
      SplitNoSeparator(a[1..], sep);
      assert [a[0]] + a[1..] == a;
    }
  }

  lemma {:induction false} SplitAtFirstSeparator(a: string, sep: char, t: string)
    requires sep !in a
    ensures Split(a + [sep] + t, sep) == [a] + Split(t, sep)
    decreases |a|
  {
    var s := a + [sep] + t;
    if a == [] {
      assert s[0] == sep && s[1..] == t;
    } else {
      assert s[0] == a[0] && s[1..] == a[1..] + [sep] + t;
      SplitAtFirstSeparator(a[1..], sep, t);
      assert [a[0]] + a[1..] == a;
    }
  }

  /** Splitting a join recovers the pieces, provided there is at least one
      piece and no piece contains the separator. */
  lemma {:induction false} SplitJoin(pieces: seq<string>, sep: char)
    requires |pieces| >= 1
    requires forall i :: 0 <= i < |pieces| ==> sep !in pieces[i]
    ensures Split(Join(pieces, sep), sep) == pieces
    decreases |pieces|
  {
    if |pieces| == 1 {
      SplitNoSeparator(pieces[0], sep);
    } else {
      SplitJoin(pieces[1..], sep);
      SplitAtFirstSeparator(pieces[0], sep, Join(pieces[1..], sep));
      assert [pieces[0]] + pieces[1..] == pieces;
    }
  }

  /** `pieces.filter(Boolean)` on strings. */
  function DropEmpty(pieces: seq<string>): seq<string> {
    if pieces == [] then []
    else if pieces[0] == "" then DropEmpty(pieces[1..])
    else [pieces[0]] + DropEmpty(pieces[1..])
  }

  /** `DropEmpty` keeps exactly the non-empty pieces: every piece left is
      non-empty and one of the originals, each non-empty piece is kept as
      often as it occurs, and nothing goes when no piece is empty. The order
      of what is kept is the subject of `DropEmptyAppend`. */
  lemma {:induction false} DropEmptySpec(pieces: seq<string>)
    ensures forall i :: 0 <= i < |DropEmpty(pieces)| ==> DropEmpty(pieces)[i] != ""
    ensures forall i :: 0 <= i < |DropEmpty(pieces)| ==> DropEmpty(pieces)[i] in pieces
    ensures forall x :: x != "" ==> multiset(DropEmpty(pieces))[x] == multiset(pieces)[x]
    ensures (forall i :: 0 <= i < |pieces| ==> pieces[i] != "") ==> DropEmpty(pieces) == pieces
    decreases |pieces|
  {
    if pieces != [] {
      var tail := pieces[1..];
      DropEmptySpec(tail);
      var rest := DropEmpty(tail);
      assert pieces == [pieces[0]] + tail;
      assert multiset(pieces) == multiset([pieces[0]]) + multiset(tail);
      forall i | 0 <= i < |rest|
        ensures rest[i] in pieces
      {
        assert rest[i] in tail;
      }
      if pieces[0] != "" {
        var r := [pieces[0]] + rest;
        assert DropEmpty(pieces) == r;
        forall i | 0 <= i < |r|
          ensures r[i] != "" && r[i] in pieces
        {
          if i > 0 {
            assert r[i] == rest[i - 1];
          }
        }
        if forall i :: 0 <= i < |pieces| ==> pieces[i] != "" {
          assert forall i :: 0 <= i < |tail| ==> tail[i] == pieces[i + 1];
        }
      } else {
        assert DropEmpty(pieces) == rest;
      }
    }
  }

  /** Filtering a concatenation filters each part and keeps them in order,
      so the kept pieces appear in the order they had. */
  lemma {:induction false} DropEmptyAppend(a: seq<string>, b: seq<string>)
    ensures DropEmpty(a + b) == DropEmpty(a) + DropEmpty(b)
    decreases |a|
  {
    if a == [] {
      assert a + b == b;
    } else {
      assert (a + b)[0] == a[0] && (a + b)[1..] == a[1..] + b;
      DropEmptyAppend(a[1..], b);
    }
  }

  predicate IsDigit(c: char) {
    '0' <= c <= '9'
  }

  predicate AllDigits(s: string) {
    forall i :: 0 <= i < |s| ==> IsDigit(s[i])
  }

  function DigitValue(c: char): nat
    requires IsDigit(c)
  {
    (c as int) - ('0' as int)
  }

  function DigitChar(d: nat): (c: char)
    requires d < 10
    ensures IsDigit(c) && DigitValue(c) == d
  {
    (d + '0' as int) as char
  }

  /** The longest prefix of `s` made of decimal digits. */
  function LeadingDigits(s: string): (r: string)
    ensures |r| <= |s| && AllDigits(r)
  {
    if s != [] && IsDigit(s[0]) then [s[0]] + LeadingDigits(s[1..]) else ""
  }

  /** The digit run is a prefix of `s`, and it stops at the first non-digit. */
  lemma {:induction false} LeadingDigitsSpec(s: string)
    ensures var r := LeadingDigits(s);
      r == s[..|r|] && (|r| < |s| ==> !IsDigit(s[|r|]))
    decreases |s|
  {
    if s != [] && IsDigit(s[0]) {
      LeadingDigitsSpec(s[1..]);
    }
  }

  /** The value of a run of decimal digits, most significant first. */
  function DigitsValue(ds: string): nat
    requires AllDigits(ds)
  {
    if ds == [] then 0 else 10 * DigitsValue(ds[..|ds| - 1]) + DigitValue(ds[|ds| - 1])
  }

  /** What is left after an optional leading sign. */
  function Unsigned(t: string): string {
    if t != [] && (t[0] == '-' || t[0] == '+') then t[1..] else t
  }

  /** `parseInt(s, 10)`: skip leading whitespace, read an optional sign, then
      the longest run of decimal digits; `None` is NaN (no digit at all).
      Whatever follows the digits is ignored. */
  function ParseInt(s: string): Option<int> {
    var t := TrimStart(s);
    var digits := LeadingDigits(Unsigned(t));
    if digits == [] then None
    else if t[0] == '-' then Some(0 - DigitsValue(digits))
    else Some(DigitsValue(digits))
  }

  /** `parseInt(s, 10) > 0`; NaN compares false. */
  predicate IsPositiveInt(s: string) {
    match ParseInt(s)
    case Some(n) => n > 0
    case None => false
  }

  /** Some digit of `ds` is not `0`. */
  predicate HasNonZeroDigit(ds: string) {
    exists i :: 0 <= i < |ds| && ds[i] != '0'
  }

  lemma {:induction false} DigitsValuePositive(ds: string)
    requires AllDigits(ds)
    ensures DigitsValue(ds) > 0 <==> HasNonZeroDigit(ds)
    decreases |ds|
  {
    if ds != [] {
      var init := ds[..|ds| - 1];
      DigitsValuePositive(init);
      if exists i :: 0 <= i < |init| && init[i] != '0' {
        var i :| 0 <= i < |init| && init[i] != '0';
        assert ds[i] == init[i];
      }
      if exists i :: 0 <= i < |ds| && ds[i] != '0' {
        var i :| 0 <= i < |ds| && ds[i] != '0';
        if i < |init| {
          assert init[i] == ds[i];
        }
      }
    }
  }

  /** An independent reading of `parseInt(s, 10) > 0`: after the leading
      whitespace there is no minus sign, and the digit run that follows the
      optional sign contains a digit other than `0`. */
  lemma PositiveIntCharacterised(s: string)
    ensures IsPositiveInt(s) <==>
      && (TrimStart(s) == [] || TrimStart(s)[0] != '-')
      && HasNonZeroDigit(LeadingDigits(Unsigned(TrimStart(s))))
  {
    var t := TrimStart(s);
    var digits := LeadingDigits(Unsigned(t));
    DigitsValuePositive(digits);
    if digits != [] && t[0] == '-' {
      assert ParseInt(s) == Some(0 - DigitsValue(digits));
    } else if digits != [] {
      assert ParseInt(s) == Some(DigitsValue(digits));
    } else {
      assert ParseInt(s) == None;
    }
  }

  /** The `maxPrepTime &&` in front of `parseInt(maxPrepTime, 10) > 0` never
      decides anything: the empty string already parses to NaN. */
  lemma PositiveIntIsNonEmpty(s: string)
    ensures IsPositiveInt(s) ==> s != ""
  {
  }

  /** Decimal digits of a natural number, most significant first. */
  function NatDigits(n: nat): (r: string)
    ensures r != [] && AllDigits(r)
    ensures DigitsValue(r) == n
    ensures r[0] == '0' ==> r == "0"
  {
    if n < 10 then [DigitChar(n)]
    else
      var r := NatDigits(n / 10) + [DigitChar(n % 10)];
      assert r[..|r| - 1] == NatDigits(n / 10);
      r
  }

  /** `n.toString()` for an integer `n`. */
  function DecimalOf(n: int): string {
    if n < 0 then "-" + NatDigits(-n) else NatDigits(n)
  }

  lemma {:induction false} LeadingDigitsOfDigits(ds: string)
    requires AllDigits(ds)
    ensures LeadingDigits(ds) == ds
    decreases |ds|
  {
    if ds != [] {
      LeadingDigitsOfDigits(ds[1..]);
    }
  }

  /** `parseInt(n.toString(), 10)` gives `n` back: the page number sent in a
      request is the one the server reads. */
  lemma ParseDecimal(n: int)
    ensures ParseInt(DecimalOf(n)) == Some(n)
  {
    var s := DecimalOf(n);
    assert !IsWhitespace(s[0]);
    assert TrimStart(s) == s;
    if n < 0 {
      assert Unsigned(s) == NatDigits(-n);
      LeadingDigitsOfDigits(NatDigits(-n));
    } else {
      assert Unsigned(s) == NatDigits(n);
      LeadingDigitsOfDigits(NatDigits(n));
    }
  }
}

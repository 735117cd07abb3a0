/**
 * Cell addresses typed by the user ("C10"): normalisation of the entry text,
 * the prefix-anchored match of `([A-Z]+)(\d+)`, moving to the next row, and
 * the bijective base-26 column numbering (A = 1, Z = 26, AA = 27).
 */
module CellAddress {
  import opened Util

  /** A parsed address: the column letters and the row number. */
  datatype Cell = Cell(letters: string, row: nat)

  predicate IsUpper(c: char) { 'A' <= c <= 'Z' }
  predicate IsDigit(c: char) { '0' <= c <= '9' }

  predicate AllUpper(s: string) { forall i :: 0 <= i < |s| ==> IsUpper(s[i]) }
  predicate AllDigits(s: string) { forall i :: 0 <= i < |s| ==> IsDigit(s[i]) }
  predicate AllSpace(s: string) { forall i :: 0 <= i < |s| ==> IsSpace(s[i]) }

  // ---------------------------------------------------------------------------
  // Normalisation of the entry text: `.strip().upper()`
  // ---------------------------------------------------------------------------

  /** The characters Python's `str.strip()` removes (those for which `str.isspace()` holds). */
  predicate IsSpace(c: char) {
    || '\t' <= c <= '\r'                  // tab, line feed, vertical tab, form feed, carriage return
    || '\U{1C}' <= c <= '\U{1F}'          // file, group, record and unit separators
    || c == ' ' || c == '\U{85}' || c == '\U{A0}' || c == '\U{1680}'
    || '\U{2000}' <= c <= '\U{200A}'
    || c == '\U{2028}' || c == '\U{2029}' || c == '\U{202F}' || c == '\U{205F}' || c == '\U{3000}'
  }

  function StripLeading(s: string): string
    decreases |s|
  {
    if |s| > 0 && IsSpace(s[0]) then StripLeading(s[1..]) else s
  }

  function StripTrailing(s: string): string
    decreases |s|
  {
    if |s| > 0 && IsSpace(s[|s| - 1]) then StripTrailing(s[..|s| - 1]) else s
  }

  /** `str.strip()`. */
  function Strip(s: string): string {
    StripTrailing(StripLeading(s))
  }

  /** `StripLeading` removes a prefix of white space and stops at the first other character. */
  lemma {:induction false} StripLeadingRemovesSpace(s: string)
    ensures var r := StripLeading(s);
            |r| <= |s| && r == s[|s| - |r|..] && AllSpace(s[..|s| - |r|]) && (|r| > 0 ==> !IsSpace(r[0]))
    decreases |s|
  {
    if |s| > 0 && IsSpace(s[0]) {
      StripLeadingRemovesSpace(s[1..]);
      var r := StripLeading(s);
      assert s[..|s| - |r|] == [s[0]] + s[1..][..|s| - 1 - |r|];
    }
  }

  /** `StripTrailing` removes a suffix of white space and stops at the last other character. */
  lemma {:induction false} StripTrailingRemovesSpace(s: string)
    ensures var r := StripTrailing(s);
            |r| <= |s| && r == s[..|r|] && AllSpace(s[|r|..]) && (|r| > 0 ==> !IsSpace(r[|r| - 1]))
    decreases |s|
  {
    if |s| > 0 && IsSpace(s[|s| - 1]) {
      StripTrailingRemovesSpace(s[..|s| - 1]);
      var r := StripTrailing(s);
      assert s[|r|..] == s[..|s| - 1][|r|..] + [s[|s| - 1]];
    }
  }

  /**
   * `Strip(s)` is the infix of `s` left after removing the white space at
   * both ends: everything before it and after it is white space, and
   * neither of its own ends is.
   */
  lemma StripIsTrimmedInfix(s: string)
    ensures var r := Strip(s); var k := |s| - |StripLeading(s)|;
            0 <= k && k + |r| <= |s| && r == s[k..k + |r|] && AllSpace(s[..k]) && AllSpace(s[k + |r|..]) &&
            (|r| > 0 ==> !IsSpace(r[0]) && !IsSpace(r[|r| - 1]))
  {
    var l := StripLeading(s);
    var k := |s| - |l|;
    var r := StripTrailing(l);
    StripLeadingRemovesSpace(s);
    StripTrailingRemovesSpace(l);
    InfixOfSuffix(s, k, r);
    assert s[k + |r|..] == l[|r|..];
    if |r| > 0 {
      assert r[0] == l[0];
    }
  }

  lemma InfixOfSuffix(s: string, k: nat, r: string)
    requires k <= |s| && |r| <= |s| - k && r == s[k..][..|r|]
    ensures r == s[k..k + |r|]
  {
  }

  /** Upper-casing of one character: ASCII letters, dotless i and long s (whose capitals are ASCII). */
  function ToUpper(c: char): (u: char)
    ensures IsUpper(c) || IsDigit(c) ==> u == c
    ensures 'a' <= c <= 'z' ==> IsUpper(u) && u as int == c as int - 32
  {
    if 'a' <= c <= 'z' then (c as int - 32) as char
    else if c == '\U{131}' then 'I'
    else if c == '\U{17F}' then 'S'
    else c
  }

  function Upper(s: string): (r: string)
    ensures |r| == |s|
    ensures forall i :: 0 <= i < |s| ==> r[i] == ToUpper(s[i])
  {
    seq(|s|, i requires 0 <= i < |s| => ToUpper(s[i]))
  }

  /** What the GUI reads from the cell entry: `entry.get().strip().upper()`. */
  function Normalize(s: string): string {
    Upper(Strip(s))
  }

  // ---------------------------------------------------------------------------
  // Decimal numerals: `int(...)` on a digit string and `str(n)`
  // ---------------------------------------------------------------------------

  function DigitValue(c: char): nat
    requires IsDigit(c)
  {
    c as int - '0' as int
  }

  function DigitChar(d: nat): char
    requires d < 10
  {
    ('0' as int + d) as char
  }

  /** Value of a digit string read left to right; leading zeros are allowed, as in `int("01")`. */
  function DecimalValue(ds: string): nat
    requires AllDigits(ds)
    decreases |ds|
  {
    if ds == [] then 0 else 10 * DecimalValue(ds[..|ds| - 1]) + DigitValue(ds[|ds| - 1])
  }

  /** `str(n)` for a natural number. */
  function Decimal(n: nat): (r: string)
    ensures |r| > 0 && AllDigits(r)
    ensures r[0] == '0' <==> n == 0
    ensures |r| == 1 <==> n < 10
    decreases n
  {
    if n < 10 then [DigitChar(n)] else Decimal(n / 10) + [DigitChar(n % 10)]
  }

  /** `str(n)` for any integer. */
  function SignedDecimal(n: int): (r: string)
    ensures |r| > 0
  {
    if n < 0 then "-" + Decimal(-n) else Decimal(n)
  }

  lemma {:induction false} DecimalRoundTrip(n: nat)
    ensures DecimalValue(Decimal(n)) == n
    decreases n
  {
    var r := Decimal(n);
    if n >= 10 {
      assert r[..|r| - 1] == Decimal(n / 10);
      DecimalRoundTrip(n / 10);
    }
  }

  // ---------------------------------------------------------------------------
  // Matching `([A-Z]+)(\d+)` with `re.match` (anchored at the start only)
  // ---------------------------------------------------------------------------

  /** The regular expression matches some prefix of `s`. */
  ghost predicate PrefixMatches(s: string) {
    exists i, j :: MatchesAt(s, i, j)
  }

  /** `s[..i]` is the letter group and `s[i..j]` the digit group of a match. */
  ghost predicate MatchesAt(s: string, i: int, j: int) {
    0 < i < j <= |s| && AllUpper(s[..i]) && AllDigits(s[i..j])
  }

  /**
   * The greedy match: the maximal run of capital letters, then the maximal run
   * of digits; whatever follows is ignored.
   */
  function Parse(s: string): (r: Option<Cell>)
    ensures r.Some? ==> |r.value.letters| > 0 && AllUpper(r.value.letters) && r.value.letters <= s
  {
    var n := Span(s, IsUpper);
    var tail := s[n..];
    var m := Span(tail, IsDigit);
    if n > 0 && m > 0 then Some(Cell(s[..n], DecimalValue(tail[..m]))) else None
  }

  /** Every way of reading `s` as letters, digits and a non-digit tail gives the same address. */
  lemma ParseGreedy(letters: string, digits: string, rest: string)
    requires |letters| > 0 && AllUpper(letters)
    requires |digits| > 0 && AllDigits(digits)
    requires rest == [] || !IsDigit(rest[0])
    ensures Parse(letters + digits + rest) == Some(Cell(letters, DecimalValue(digits)))
  {
    var t := digits + rest;
    assert letters + digits + rest == letters + t;
    SpanConcat(letters, t, IsUpper);
    SpanConcat(digits, rest, IsDigit);
    assert (letters + t)[|letters|..] == t && (letters + t)[..|letters|] == letters;
    assert t[..|digits|] == digits;
  }

  /** `Parse` succeeds exactly when the regular expression matches a prefix. */
  lemma ParseIffRegexMatches(s: string)
    ensures Parse(s).Some? <==> PrefixMatches(s)
  {
    var n := Span(s, IsUpper);
    var m := Span(s[n..], IsDigit);
    if Parse(s).Some? {
      assert s[n..n + m] == s[n..][..m];
      assert MatchesAt(s, n, n + m);
    }
    if PrefixMatches(s) {
      var i, j :| MatchesAt(s, i, j);
      assert s[i..j][0] == s[i];
      assert forall k :: 0 <= k < i ==> s[..i][k] == s[k];
      SpanIs(s, IsUpper, i);
      assert s[i..][0] == s[i];
    }
  }

  /** The address written back into the entry: the letters followed by `str(row)`. */
  function Format(c: Cell): string {
    c.letters + Decimal(c.row)
  }

  lemma ParseFormat(c: Cell)
    requires |c.letters| > 0 && AllUpper(c.letters)
    ensures Parse(Format(c)) == Some(c)
  {
    ParseGreedy(c.letters, Decimal(c.row), []);
    assert Format(c) == c.letters + Decimal(c.row) + [];
    DecimalRoundTrip(c.row);
  }

  /** A formatted address is already normalised: stripping and upper-casing leave it alone. */
  lemma NormalizeFormat(c: Cell)
    requires |c.letters| > 0 && AllUpper(c.letters)
    ensures Normalize(Format(c)) == Format(c)
  {
    var s := Format(c);
    assert s[0] == c.letters[0];
    assert !IsSpace(s[0]);
    assert StripLeading(s) == s;
    var d := Decimal(c.row);
    assert s[|s| - 1] == d[|d| - 1];
    assert !IsSpace(s[|s| - 1]);
    assert StripTrailing(s) == s;
    assert forall i :: 0 <= i < |s| ==> IsUpper(s[i]) || IsDigit(s[i]) by {
      forall i | 0 <= i < |s| ensures IsUpper(s[i]) || IsDigit(s[i]) {
        if i < |c.letters| { assert s[i] == c.letters[i]; } else { assert s[i] == d[i - |c.letters|]; }
      }
    }
    assert Upper(s) == s;
  }

  // ---------------------------------------------------------------------------
  // Moving to the next row
  // ---------------------------------------------------------------------------

  /**
   * The new entry text after a save: the same letters followed by the next row
   * number, or nothing when the normalised entry is empty or does not match.
   * Characters after the digits are dropped.
   */
  function Advance(entry: string): (r: Option<string>)
    ensures r.Some? <==> Parse(Normalize(entry)).Some?
  {
    var current := Normalize(entry);
    if current == "" then None
    else match Parse(current)
      case None => None
      case Some(c) => Some(Format(Cell(c.letters, c.row + 1)))
  }

  lemma AdvanceMovesDownOneRow(entry: string)
    requires Parse(Normalize(entry)).Some?
    ensures var c := Parse(Normalize(entry)).value;
            var next := Advance(entry).value;
            next == Format(Cell(c.letters, c.row + 1)) &&
            Parse(next) == Some(Cell(c.letters, c.row + 1)) && Normalize(next) == next
  {
    var c := Parse(Normalize(entry)).value;
    ParseFormat(Cell(c.letters, c.row + 1));
    NormalizeFormat(Cell(c.letters, c.row + 1));
  }

  // ---------------------------------------------------------------------------
  // Column letters as numbers (bijective base 26)
  // ---------------------------------------------------------------------------

  function LetterValue(c: char): nat
    requires IsUpper(c)
  {
    c as int - 'A' as int + 1
  }

  function LetterChar(k: nat): char
    requires k < 26
  {
    ('A' as int + k) as char
  }

  /** `col = col * 26 + (ord(ch) - ord('A') + 1)` folded over the letters from left to right. */
  function ColumnValue(s: string): nat
    requires AllUpper(s)
    decreases |s|
  {
    if s == [] then 0 else 26 * ColumnValue(s[..|s| - 1]) + LetterValue(s[|s| - 1])
  }

  /** The inverse numbering: the letters of column `n` (empty for 0). */
  function ColumnLetters(n: nat): (r: string)
    ensures AllUpper(r)
    ensures |r| > 0 <==> n > 0
    decreases n
  {
    if n == 0 then "" else ColumnLetters((n - 1) / 26) + [LetterChar((n - 1) % 26)]
  }

  lemma {:induction false} LettersOfColumn(s: string)
    requires AllUpper(s)
    ensures ColumnLetters(ColumnValue(s)) == s
    decreases |s|
  {
    if s != [] {
      var p, c := s[..|s| - 1], s[|s| - 1];
      var v, d := ColumnValue(p), LetterValue(c);
      assert 1 <= d <= 26;
      assert (26 * v + d - 1) / 26 == v && (26 * v + d - 1) % 26 == d - 1;
      LettersOfColumn(p);
      assert s == p + [c];
    }
  }

  lemma {:induction false} ColumnOfLetters(n: nat)
    ensures ColumnValue(ColumnLetters(n)) == n
    decreases n
  {
    if n > 0 {
      var r := ColumnLetters(n);
      assert r[..|r| - 1] == ColumnLetters((n - 1) / 26);
      ColumnOfLetters((n - 1) / 26);
    }
  }

  /** Distinct letter strings name distinct columns, and a non-empty one names a column >= 1. */
  lemma ColumnValueInjective(s: string, t: string)
    requires AllUpper(s) && AllUpper(t)
    ensures ColumnValue(s) == ColumnValue(t) <==> s == t
    ensures |s| > 0 ==> ColumnValue(s) >= 1
  {
    LettersOfColumn(s);
    LettersOfColumn(t);
  }

  /** The column number computed by the loop in the sheet save. */
  method ColumnNumber(letters: string) returns (col: nat)
    requires AllUpper(letters)
    ensures col == ColumnValue(letters)
    ensures |letters| > 0 ==> col >= 1
  {
    col := 0;
    for i := 0 to |letters|
      invariant col == ColumnValue(letters[..i])
    {
      assert letters[..i + 1][..i] == letters[..i];
      col := col * 26 + (letters[i] as int - 'A' as int + 1);
    }
    assert letters[..|letters|] == letters;
  }

  /** A plain address: letters, then the row. */
  lemma ParsePlainAddress()
    ensures Parse("C10") == Some(Cell("C", 10))
  {
    ParseGreedy("C", "10", "");
    assert "C10" == "C" + "10" + "";
    assert "10"[..1] == "1";
  }

  /** The match is a prefix match: characters after the row are ignored. */
  lemma ParseIgnoresTrailing()
    ensures Parse("A1X") == Some(Cell("A", 1))
  {
    ParseGreedy("A", "1", "X");
    assert "A1X" == "A" + "1" + "X";
  }

  /** Leading zeros of the row are accepted and dropped by `int()`. */
  lemma ParseLeadingZero()
    ensures Parse("A01") == Some(Cell("A", 1))
  {
    ParseGreedy("A", "01", "");
    assert "A01" == "A" + "01" + "";
    assert "01"[..1] == "0";
  }

  /** A lower-case entry with surrounding blanks is read as the capital address and advanced from it. */
  lemma LowerCaseEntry()
    ensures Normalize(" c10 ") == "C10"
    ensures Advance(" c10 ") == Some("C11")
  {
    assert StripLeading(" c10 ") == "c10 ";
    assert StripTrailing("c10 ") == "c10";
    assert Upper("c10") == "C10";
    ParsePlainAddress();
    assert Format(Cell("C", 11)) == "C11";
  }

  /** Entries without leading letters, or without digits after them, do not match. */
  lemma ParseRejects()
    ensures Parse("1A") == None && Parse("A") == None && Parse("") == None
  {
    assert Span("A", IsUpper) == 1;
    assert Span("1A", IsUpper) == 0;
  }

  /** Single letters count from 1; after Z comes AA. */
  lemma ColumnExamples()
    ensures ColumnValue("A") == 1 && ColumnValue("Z") == 26 && ColumnValue("AA") == 27
  {
    assert "AA"[..1] == "A";
  }
}

/** The A1-notation range that `write_sheet` addresses:
    `<title>!A1:<end column><end row>`, built with `chr(65 + ncols - 1)` for
    the end column and `str(rows + 1)` for the end row. A reader of such
    ranges is defined beside the writer, and the two are proved to agree. */
module A1Notation {
  import opened Wrappers

  predicate IsDigit(c: char) {
    '0' <= c <= '9'
  }

  predicate AllDigits(s: string) {
    forall i :: 0 <= i < |s| ==> IsDigit(s[i])
  }

  function DigitChar(d: nat): (c: char)
    requires d < 10
    ensures IsDigit(c) && c as int - '0' as int == d
  {
    ('0' as int + d) as char
  }

  /** `str(n)` for a natural number: its decimal digits, no leading zero. */
  function Decimal(n: nat): (s: string)
    ensures |s| >= 1 && AllDigits(s)
    ensures s[0] == '0' ==> n == 0
    decreases n
  {
    if n < 10 then [DigitChar(n)] else Decimal(n / 10) + [DigitChar(n % 10)]
  }

  /** The value of a string of decimal digits. */
  function ParseDecimal(s: string): nat
    requires AllDigits(s)
  {
    if s == [] then 0 else 10 * ParseDecimal(s[..|s| - 1]) + (s[|s| - 1] as int - '0' as int)
  }

  lemma {:induction false} DecimalRoundTrip(n: nat)
    ensures ParseDecimal(Decimal(n)) == n
    decreases n
  {
    if n >= 10 {
      var s := Decimal(n);
      assert s[..|s| - 1] == Decimal(n / 10);
      DecimalRoundTrip(n / 10);
    }
  }

  /** `chr(65 + ncols - 1)`: the end column for `ncols` columns. Python's
      `chr` raises ValueError above U+10FFFF; a lone surrogate is accepted
      by `chr` but cannot be encoded into the request URL, which raises
      UnicodeEncodeError. It is an upper-case letter exactly for 1 to 26
      columns, and then the letter's position in the alphabet is `ncols`. */
  function EndColumn(ncols: nat): (c: Outcome<char>)
    ensures (c.Returned? && 'A' <= c.value <= 'Z') <==> 1 <= ncols <= 26
    ensures 1 <= ncols <= 26 ==> c.value as int - 'A' as int + 1 == ncols
    ensures ncols == 0 ==> c == Returned('@')
    // chr refuses code points above U+10FFFF; the request cannot encode a lone surrogate
    ensures 64 + ncols > 0x10FFFF ==> c == Raised(ValueError)
    ensures 0xD800 <= 64 + ncols < 0xE000 ==> c == Raised(UnicodeEncodeError)
    ensures c.Raised? <==> 64 + ncols > 0x10FFFF || 0xD800 <= 64 + ncols < 0xE000
    ensures c.Returned? ==> c.value as int == 64 + ncols
  {
    var code := 65 + ncols - 1;
    if code > 0x10FFFF then Raised(ValueError)
    else if 0xD800 <= code < 0xE000 then Raised(UnicodeEncodeError)
    else Returned(code as char)
  }

  /** The range `write_sheet` writes: from A1 to the end column and row
      `rows + 1` (a header row and `rows` data rows), on sheet `title`. */
  function RangeName(title: string, ncols: nat, rows: nat): (r: Outcome<string>)
    ensures r.Raised? <==> EndColumn(ncols).Raised?
    ensures r.Raised? ==> r.error == EndColumn(ncols).error
    ensures r.Returned? ==>
      |r.value| == |title| + 5 + |Decimal(rows + 1)| &&
      r.value[..|title|] == title && r.value[|title|..|title| + 4] == "!A1:" &&
      r.value[|title| + 4] == EndColumn(ncols).value && r.value[|title| + 5..] == Decimal(rows + 1)
  {
    match EndColumn(ncols)
    case Raised(e) => Raised(e)
    case Returned(endColumn) =>
      var s := title + "!" + "A" + "1" + ":" + [endColumn] + Decimal(rows + 1);
      assert s[..|title|] == title;
      assert s[|title|..|title| + 4] == "!A1:";
      assert s[|title| + 5..] == Decimal(rows + 1);
      Returned(s)
  }

  /** A rectangular range: a sheet title, and the first and last cell, each
      given by a column number (A is 1) and a row number. */
  datatype A1Range = A1Range(sheet: string, startCol: nat, startRow: nat, endCol: nat, endRow: nat)

  /** Split at the last occurrence of `sep`. */
  function SplitLast(s: string, sep: char): (r: Option<(string, string)>)
    ensures r.Some? ==> s == r.value.0 + [sep] + r.value.1 && sep !in r.value.1
    ensures r.None? ==> sep !in s
  {
    if s == [] then None
    else if s[|s| - 1] == sep then Some((s[..|s| - 1], ""))
    else match SplitLast(s[..|s| - 1], sep)
      case None => None
      case Some((before, after)) => Some((before, after + [s[|s| - 1]]))
  }

  lemma {:induction false} SplitLastAt(before: string, sep: char, after: string)
    requires sep !in after
    ensures SplitLast(before + [sep] + after, sep) == Some((before, after))
    decreases |after|
  {
    var s := before + [sep] + after;
    if after == [] {
      assert s[..|s| - 1] == before;
    } else {
      var init := after[..|after| - 1];
      assert s[..|s| - 1] == before + [sep] + init;
      SplitLastAt(before, sep, init);
      assert init + [after[|after| - 1]] == after;
    }
  }

  /** A cell such as `C12`: one upper-case letter, then the row's digits. */
  function ParseCell(cell: string): Option<(nat, nat)> {
    if |cell| >= 2 && 'A' <= cell[0] <= 'Z' && AllDigits(cell[1..]) then
      Some((cell[0] as int - 'A' as int + 1, ParseDecimal(cell[1..])))
    else None
  }

  /** Read a range `<title>!<cell>:<cell>`; the title may itself hold `!`. */
  function ParseRange(s: string): Option<A1Range> {
    match SplitLast(s, '!')
    case None => None
    case Some((sheet, cells)) =>
      match SplitLast(cells, ':')
      case None => None
      case Some((first, last)) =>
        match (ParseCell(first), ParseCell(last))
        case (Some(a), Some(b)) => Some(A1Range(sheet, a.0, a.1, b.0, b.1))
        case _ => None
  }

  /** A range string splits at its last `!` into the title and the cells,
      and the cells split at their last `:` into `A1` and the end cell. */
  lemma RangeSplits(title: string, endColumn: char, digits: string)
    requires AllDigits(digits) && endColumn != '!' && endColumn != ':'
    ensures SplitLast(title + "!" + "A" + "1" + ":" + [endColumn] + digits, '!') ==
      Some((title, "A1" + [':'] + ([endColumn] + digits)))
    ensures SplitLast("A1" + [':'] + ([endColumn] + digits), ':') == Some(("A1", [endColumn] + digits))
  {
    var last := [endColumn] + digits;
    var cells := "A1" + [':'] + last;
    assert title + "!" + "A" + "1" + ":" + [endColumn] + digits == title + ['!'] + cells;
    assert '!' !in cells by {
      forall i | 0 <= i < |cells| ensures cells[i] != '!' {
        if i >= 4 { assert cells[i] == digits[i - 4]; }
      }
    }
    SplitLastAt(title, '!', cells);
    assert ':' !in last by {
      forall i | 0 <= i < |last| ensures last[i] != ':' {
        if i >= 1 { assert last[i] == digits[i - 1]; }
      }
    }
    SplitLastAt("A1", ':', last);
  }

  /** For 1 to 26 columns the range names the block from A1 to column
      `ncols`, row `rows + 1`, on sheet `title`. */
  lemma RangeRoundTrip(title: string, ncols: nat, rows: nat)
    requires 1 <= ncols <= 26
    ensures RangeName(title, ncols, rows).Returned?
    ensures ParseRange(RangeName(title, ncols, rows).value) == Some(A1Range(title, 1, 1, ncols, rows + 1))
  {
    var endColumn := EndColumn(ncols).value;
    var digits := Decimal(rows + 1);
    RangeSplits(title, endColumn, digits);
    assert ([endColumn] + digits)[1..] == digits;
    DecimalRoundTrip(rows + 1);
    assert ParseDecimal("1") == 1 by { assert "1"[..0] == []; }
  }

  /** With no column, or more than 26, the end column is not a letter and
      the range is not an A1 range at all (or building it raises). */
  lemma RangeUnreadableOutsideAlphabet(title: string, ncols: nat, rows: nat)
    requires ncols == 0 || ncols > 26
    ensures RangeName(title, ncols, rows).Returned? ==> ParseRange(RangeName(title, ncols, rows).value).None?
  {
    if RangeName(title, ncols, rows).Returned? {
      var endColumn := EndColumn(ncols).value;
      assert endColumn != '!' && endColumn != ':';
      RangeSplits(title, endColumn, Decimal(rows + 1));
    }
  }
}

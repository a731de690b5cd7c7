/**
 * The calibration point file (Control.saveToTxt / Control.readFromTxt): a table of
 * integers written one row per line, every value followed by a tab and every row by
 * a newline; read back by splitting the text into lines, stripping each line,
 * splitting it at tabs and passing every field through Python's `int`.
 *
 * The file is its contents, a string: opening, writing and closing it are not modelled.
 * Reading opens it in text mode, so Python's universal newlines apply: "\r\n" and a lone
 * "\r" both read as "\n".
 * Every list the source builds by appending is defined here by its last element, so
 * the definitions follow the loops of the two methods.
 */
module PointFile {
  import opened Wrappers

  /** A non-empty sequence is its front followed by its last element. */
  lemma LastSplit<T>(s: seq<T>)
    requires s != []
    ensures s[..|s| - 1] + [s[|s| - 1]] == s
  {
  }

  /** A prefix one longer is the prefix followed by the next element. */
  lemma PrefixSnoc<T>(s: seq<T>, i: int)
    requires 0 <= i < |s|
    ensures s[..i + 1] == s[..i] + [s[i]]
  {
  }

  lemma Assoc(a: string, b: string, c: string)
    ensures (a + b) + c == a + (b + c)
  {
  }

  // ---------------------------------------------------------------- str(int)

  predicate IsDigit(c: char) { '0' <= c <= '9' }

  function DigitChar(d: int): (c: char)
    requires 0 <= d < 10
    ensures IsDigit(c)
  {
    "0123456789"[d]
  }

  function DigitValue(c: char): int
    requires IsDigit(c)
  {
    (c as int) - ('0' as int)
  }

  predicate AllDigits(s: string) { forall i :: 0 <= i < |s| ==> IsDigit(s[i]) }

  /** Decimal digits of a natural number, most significant first, no leading zeros. */
  function NatToString(n: nat): (s: string)
    ensures |s| > 0 && IsDigit(s[0]) && IsDigit(s[|s| - 1])
  {
    if n < 10 then [DigitChar(n)] else NatToString(n / 10) + [DigitChar(n % 10)]
  }

  /** Python's `str` on an int. */
  function IntToString(n: int): (s: string)
    ensures |s| > 0 && IsDigit(s[|s| - 1])
    ensures s[0] == '-' <==> n < 0
  {
    if n < 0 then "-" + NatToString(-n) else NatToString(n)
  }

  // ---------------------------------------------------------------- int(str)

  /** Value of a string of decimal digits, most significant first. */
  function DigitsValue(s: string): nat
    requires AllDigits(s)
  {
    if s == [] then 0 else DigitsValue(s[..|s| - 1]) * 10 + DigitValue(s[|s| - 1])
  }

  /** Python's `int` on a field: an optional sign followed by at least one decimal digit. */
  function ParseInt(s: string): (r: Option<int>)
    ensures r.Some? ==> |s| > 0
  {
    if |s| > 0 && (s[0] == '-' || s[0] == '+') then
      if |s| > 1 && AllDigits(s[1..]) then
        var v: int := DigitsValue(s[1..]);
        Some(if s[0] == '-' then -v else v)
      else None
    else if |s| > 0 && AllDigits(s) then Some(DigitsValue(s))
    else None
  }

  lemma DigitCharValue(d: int)
    requires 0 <= d < 10
    ensures DigitValue(DigitChar(d)) == d
  {
    assert "0123456789"[d] as int == '0' as int + d;
  }

  lemma {:induction false} NatToStringValue(n: nat)
    ensures AllDigits(NatToString(n)) && DigitsValue(NatToString(n)) == n
  {
    if n < 10 {
      DigitCharValue(n);
      assert [DigitChar(n)][..0] == [];
    } else {
      NatToStringValue(n / 10);
      var p, c := NatToString(n / 10), DigitChar(n % 10);
      var s := p + [c];
      assert s == NatToString(n);
      assert s[..|s| - 1] == p;
      assert AllDigits(s) by {
        forall i | 0 <= i < |s|
          ensures IsDigit(s[i])
        {
          if i < |p| {
            assert s[i] == p[i];
          }
        }
      }
      DigitCharValue(n % 10);
      assert DigitsValue(s) == DigitsValue(p) * 10 + n % 10;
    }
  }

  /** `int` reads a string of digits, with or without a minus sign in front. */
  lemma ParseIntDigits(t: string)
    requires |t| > 0 && AllDigits(t)
    ensures ParseInt(t) == Some(DigitsValue(t))
    ensures ParseInt("-" + t) == Some(-(DigitsValue(t) as int))
  {
    assert IsDigit(t[0]);
    var s := "-" + t;
    assert s[1..] == t;
  }

  /** `int(str(n)) == n` for every integer. */
  lemma IntToStringRoundTrip(n: int)
    ensures ParseInt(IntToString(n)) == Some(n)
  {
    var m: nat := if n < 0 then -n else n;
    NatToStringValue(m);
    ParseIntDigits(NatToString(m));
  }

  /** `str(n)` holds no tab, newline or carriage return, and it does not start with white space. */
  lemma IntToStringChars(n: int)
    ensures forall i :: 0 <= i < |IntToString(n)| ==>
      IntToString(n)[i] != '\t' && IntToString(n)[i] != '\n' && IntToString(n)[i] != '\r'
    ensures !IsSpace(IntToString(n)[0])
  {
    NatToStringValue(if n < 0 then -n else n);
  }

  // ---------------------------------------------------------------- lines, strip, split

  /** Index of the last `c` in `s`, or -1 when there is none. */
  function LastIndexOf(s: string, c: char): (k: int)
    ensures -1 <= k < |s|
    ensures 0 <= k ==> s[k] == c
    ensures forall i :: k < i < |s| ==> s[i] != c
  {
    if s == [] then -1
    else if s[|s| - 1] == c then |s| - 1
    else LastIndexOf(s[..|s| - 1], c)
  }

  /** Python's `s.split(c)`: never empty; adjacent separators give empty pieces. */
  function Split(s: string, c: char): (pieces: seq<string>)
    ensures |pieces| > 0
    decreases |s|
  {
    var k := LastIndexOf(s, c);
    if k < 0 then [s] else Split(s[..k], c) + [s[k + 1..]]
  }

  /** Text-mode reading: every "\r\n" and every lone "\r" becomes one "\n". */
  function Newlines(s: string): (t: string)
    ensures |t| <= |s|
    ensures forall i :: 0 <= i < |t| ==> t[i] != '\r'
  {
    if s == [] then []
    else if s[0] == '\r' then "\n" + Newlines(if |s| > 1 && s[1] == '\n' then s[2..] else s[1..])
    else [s[0]] + Newlines(s[1..])
  }

  /** Text without a carriage return reads as it is. */
  lemma {:induction false} NewlinesPlain(s: string)
    requires forall i :: 0 <= i < |s| ==> s[i] != '\r'
    ensures Newlines(s) == s
    decreases |s|
  {
    if s != [] {
      NewlinesPlain(s[1..]);
    }
  }

  /** Plain text in front reads as it is, and the rest reads on its own. */
  lemma {:induction false} NewlinesPrefix(a: string, b: string)
    requires forall i :: 0 <= i < |a| ==> a[i] != '\r'
    ensures Newlines(a + b) == a + Newlines(b)
    decreases |a|
  {
    if a == [] {
      assert a + b == b;
    } else {
      var s := a + b;
      assert s[0] == a[0] && s[0] != '\r';
      assert s[1..] == a[1..] + b;
      NewlinesPrefix(a[1..], b);
      assert Newlines(s) == [a[0]] + Newlines(a[1..] + b);
      assert [a[0]] + (a[1..] + Newlines(b)) == a + Newlines(b);
    }
  }

  /** A lone "\r" between two plain texts reads as a line break. */
  lemma LoneCarriageReturn(a: string, b: string)
    requires forall i :: 0 <= i < |a| ==> a[i] != '\r'
    requires forall i :: 0 <= i < |b| ==> b[i] != '\r'
    requires b == [] || b[0] != '\n'
    ensures Newlines(a + "\r" + b) == a + "\n" + b
  {
    assert a + "\r" + b == a + ("\r" + b);
    NewlinesPrefix(a, "\r" + b);
    assert ("\r" + b)[1..] == b;
    NewlinesPlain(b);
  }

  /** The text with every "\n" written as "\r\n", as a Windows editor saves it. */
  function Crlf(s: string): (t: string)
    ensures |t| >= |s|
  {
    if s == [] then [] else if s[0] == '\n' then "\r\n" + Crlf(s[1..]) else [s[0]] + Crlf(s[1..])
  }

  /** A file saved with "\r\n" line ends reads as the same file with "\n" line ends. */
  lemma {:induction false} CrlfReadsAsLf(s: string)
    requires forall i :: 0 <= i < |s| ==> s[i] != '\r'
    ensures Newlines(Crlf(s)) == s
    decreases |s|
  {
    if s != [] {
      CrlfReadsAsLf(s[1..]);
      if s[0] == '\n' {
        var c := "\r\n" + Crlf(s[1..]);
        assert c[2..] == Crlf(s[1..]);
      } else {
        assert s[0] != '\r';
        var c := [s[0]] + Crlf(s[1..]);
        assert c[1..] == Crlf(s[1..]);
      }
    }
  }

  /** `file.readlines()`, each line without its newline (strip removes it anyway). */
  function Lines(text: string): seq<string>
  {
    if text == [] then []
    else if text[|text| - 1] == '\n' then Split(text[..|text| - 1], '\n')
    else Split(text, '\n')
  }

  /** The ASCII characters for which Python's `str.isspace` holds. */
  predicate IsSpace(c: char) { c == ' ' || 9 <= c as int <= 13 || 28 <= c as int <= 31 }

  function StripLeft(s: string): string
  {
    if s != [] && IsSpace(s[0]) then StripLeft(s[1..]) else s
  }

  function StripRight(s: string): string
  {
    if s != [] && IsSpace(s[|s| - 1]) then StripRight(s[..|s| - 1]) else s
  }

  /** `str.strip()` with no argument. */
  function Strip(s: string): string
  {
    StripRight(StripLeft(s))
  }

  /** The fields of one line as `readFromTxt` sees them: strip, then split at tabs. */
  function Fields(line: string): seq<string>
  {
    Split(Strip(line), '\t')
  }

  /** The first loop of `readFromTxt`: the fields of every line. */
  function FieldRows(lines: seq<string>): (rows: seq<seq<string>>)
    ensures |rows| == |lines|
  {
    if lines == [] then [] else FieldRows(lines[..|lines| - 1]) + [Fields(lines[|lines| - 1])]
  }

  // ---------------------------------------------------------------- the file format

  /** One row as `saveToTxt` writes it: every value followed by a tab (no newline). */
  function RowText(row: seq<int>): string
  {
    if row == [] then "" else RowText(row[..|row| - 1]) + IntToString(row[|row| - 1]) + "\t"
  }

  /** The whole file as `saveToTxt` writes it: every row followed by a newline. */
  function Serialize(table: seq<seq<int>>): string
  {
    if table == [] then "" else Serialize(table[..|table| - 1]) + RowText(table[|table| - 1]) + "\n"
  }

  /** The second loop of `readFromTxt` on one row; `None` when some `int` call raises. */
  function ParseFields(fs: seq<string>): Option<seq<int>>
  {
    if fs == [] then Some([])
    else match ParseFields(fs[..|fs| - 1])
      case None => None
      case Some(vs) =>
        match ParseInt(fs[|fs| - 1])
        case None => None
        case Some(v) => Some(vs + [v])
  }

  /** The second loop of `readFromTxt` on every row, top to bottom. */
  function ParseTable(rows: seq<seq<string>>): Option<seq<seq<int>>>
  {
    if rows == [] then Some([])
    else match ParseTable(rows[..|rows| - 1])
      case None => None
      case Some(t) =>
        match ParseFields(rows[|rows| - 1])
        case None => None
        case Some(r) => Some(t + [r])
  }

  /** What `readFromTxt` returns for a file with contents `text`. */
  function Parse(text: string): Option<seq<seq<int>>>
  {
    ParseTable(FieldRows(Lines(Newlines(text))))
  }

  // ---------------------------------------------------------------- the two methods

  /** `saveToTxt`: writes the table cell by cell; the result is the file's contents. */
  method SaveToTxt(table: seq<seq<int>>) returns (text: string)
    ensures text == Serialize(table)
  {
    text := "";
    var i := 0;
    while i < |table|
      invariant 0 <= i <= |table|
      invariant text == Serialize(table[..i])
    {
      var j := 0;
      while j < |table[i]|
        invariant 0 <= j <= |table[i]|
        invariant text == Serialize(table[..i]) + RowText(table[i][..j])
      {
        assert table[i][..j + 1][..j] == table[i][..j];
        Assoc(Serialize(table[..i]), RowText(table[i][..j]), IntToString(table[i][j]));
        text := text + IntToString(table[i][j]);
        Assoc(Serialize(table[..i]), RowText(table[i][..j]) + IntToString(table[i][j]), "\t");
        text := text + "\t";
        j := j + 1;
      }
      assert table[i][..j] == table[i];
      assert table[..i + 1][..i] == table[..i];
      text := text + "\n";
      i := i + 1;
    }
    assert table[..i] == table;
  }

  /**
   * `readFromTxt` on a file with contents `text`: split every stripped line at tabs,
   * then convert every field with `int`; `None` stands for the ValueError that a field
   * which is not an integer raises.
   */
  method ReadFromTxt(text: string) returns (table: Option<seq<seq<int>>>)
    ensures table == Parse(text)
  {
    var listSource := SplitLines(Lines(Newlines(text)));
    var rows: seq<seq<int>> := [];
    var i := 0;
    while i < |listSource|
      invariant 0 <= i <= |listSource|
      invariant ParseTable(listSource[..i]) == Some(rows)
    {
      var row := ParseRow(listSource[i]);
      PrefixSnoc(listSource, i);
      if row.None? {
        ParseTableFails(listSource, i);
        return None;
      }
      ParseTableSnoc(listSource[..i], listSource[i], rows, row.value);
      rows := rows + [row.value];
      i := i + 1;
    }
    assert listSource[..i] == listSource;
    table := Some(rows);
  }

  /** The first loop of `readFromTxt`: strip and split every line. */
  method SplitLines(listRow: seq<string>) returns (listSource: seq<seq<string>>)
    ensures listSource == FieldRows(listRow)
  {
    listSource := [];
    var i := 0;
    while i < |listRow|
      invariant 0 <= i <= |listRow|
      invariant listSource == FieldRows(listRow[..i])
    {
      PrefixSnoc(listRow, i);
      FieldRowsSnoc(listRow[..i], listRow[i]);
      listSource := listSource + [Fields(listRow[i])];
      i := i + 1;
    }
    assert listRow[..i] == listRow;
  }

  /** The inner loop of `readFromTxt`'s second loop: `int` on every field of one row. */
  method ParseRow(fields: seq<string>) returns (row: Option<seq<int>>)
    ensures row == ParseFields(fields)
  {
    var values: seq<int> := [];
    var j := 0;
    while j < |fields|
      invariant 0 <= j <= |fields|
      invariant ParseFields(fields[..j]) == Some(values)
    {
      var v := ParseInt(fields[j]);
      PrefixSnoc(fields, j);
      if v.None? {
        ParseFieldsFails(fields, j);
        return None;
      }
      ParseFieldsSnoc(fields[..j], fields[j], values, v.value);
      values := values + [v.value];
      j := j + 1;
    }
    assert fields[..j] == fields;
    row := Some(values);
  }


  lemma {:induction false} ParseFieldsFails(fs: seq<string>, j: nat)
    requires j < |fs| && ParseInt(fs[j]).None?
    ensures ParseFields(fs) == None
    decreases |fs|
  {
    if j < |fs| - 1 {
      ParseFieldsFails(fs[..|fs| - 1], j);
    }
  }

  lemma {:induction false} ParseTableFails(rows: seq<seq<string>>, i: nat)
    requires i < |rows| && ParseFields(rows[i]) == None
    ensures ParseTable(rows) == None
    decreases |rows|
  {
    if i < |rows| - 1 {
      ParseTableFails(rows[..|rows| - 1], i);
    }
  }

  // ---------------------------------------------------------------- the round trip

  /** The rows of `table` as the lines of the file, without their newlines. */
  function RowTexts(table: seq<seq<int>>): (lines: seq<string>)
    ensures |lines| == |table|
  {
    if table == [] then [] else RowTexts(table[..|table| - 1]) + [RowText(table[|table| - 1])]
  }

  /** A non-empty row after strip: the values joined by tabs. */
  function Joined(row: seq<int>): string
    requires row != []
  {
    if |row| == 1 then IntToString(row[0])
    else Joined(row[..|row| - 1]) + "\t" + IntToString(row[|row| - 1])
  }

  /** The values of a row as strings. */
  function Strings(row: seq<int>): (fs: seq<string>)
    ensures |fs| == |row|
  {
    if row == [] then [] else Strings(row[..|row| - 1]) + [IntToString(row[|row| - 1])]
  }

  lemma {:induction false} LastIndexOfAfter(a: string, c: char, b: string)
    requires forall i :: 0 <= i < |b| ==> b[i] != c
    ensures LastIndexOf(a + [c] + b, c) == |a|
    decreases |b|
  {
    if b != [] {
      var n := |b| - 1;
      assert (a + [c] + b)[..|a| + 1 + n] == a + [c] + b[..n];
      LastIndexOfAfter(a, c, b[..n]);
    }
  }

  /** Splitting at the last separator. */
  lemma SplitLast(a: string, c: char, b: string)
    requires forall i :: 0 <= i < |b| ==> b[i] != c
    ensures Split(a + [c] + b, c) == Split(a, c) + [b]
  {
    LastIndexOfAfter(a, c, b);
    var s := a + [c] + b;
    assert s[..|a|] == a;
    assert s[|a| + 1..] == b;
  }

  lemma {:induction false} RowTextIsJoined(row: seq<int>)
    requires row != []
    ensures RowText(row) == Joined(row) + "\t"
    decreases |row|
  {
    var n := |row| - 1;
    var init, s := row[..n], IntToString(row[n]);
    assert RowText(row) == RowText(init) + s + "\t";
    if n == 0 {
      assert init == [] && RowText(init) + s == s;
    } else {
      RowTextIsJoined(init);
      assert Joined(row) == Joined(init) + "\t" + s;
    }
  }

  /** A joined row starts with the first value's first character and ends with a digit. */
  lemma {:induction false} JoinedEnds(row: seq<int>)
    requires row != []
    ensures |Joined(row)| > 0 && Joined(row)[0] == IntToString(row[0])[0]
    ensures IsDigit(Joined(row)[|Joined(row)| - 1])
    decreases |row|
  {
    var n := |row| - 1;
    if n > 0 {
      var init := row[..n];
      JoinedEnds(init);
      var j, s := Joined(init), IntToString(row[n]);
      assert Joined(row) == j + "\t" + s;
      assert Joined(row)[0] == j[0] && init[0] == row[0];
      assert Joined(row)[|Joined(row)| - 1] == s[|s| - 1];
    }
  }

  lemma {:induction false} SplitJoined(row: seq<int>)
    requires row != []
    ensures Split(Joined(row), '\t') == Strings(row)
    decreases |row|
  {
    var n := |row| - 1;
    var s := IntToString(row[n]);
    IntToStringChars(row[n]);
    if n == 0 {
      assert LastIndexOf(s, '\t') == -1;
      assert row[..n] == [];
    } else {
      SplitJoined(row[..n]);
      SplitLast(Joined(row[..n]), '\t', s);
    }
  }

  lemma FieldsOfRowText(row: seq<int>)
    requires row != []
    ensures Fields(RowText(row)) == Strings(row)
  {
    RowTextIsJoined(row);
    JoinedEnds(row);
    IntToStringChars(row[0]);
    var j := Joined(row);
    var s := j + "\t";
    assert s[0] == j[0];
    assert StripLeft(s) == s;
    assert s[..|s| - 1] == j;
    assert StripRight(j) == j;
    SplitJoined(row);
  }

  lemma {:induction false} RowTextChars(row: seq<int>)
    ensures forall i :: 0 <= i < |RowText(row)| ==> RowText(row)[i] != '\n' && RowText(row)[i] != '\r'
    decreases |row|
  {
    if row != [] {
      var n := |row| - 1;
      RowTextChars(row[..n]);
      IntToStringChars(row[n]);
      var a, b := RowText(row[..n]), IntToString(row[n]);
      assert RowText(row) == a + b + "\t";
      forall i | 0 <= i < |RowText(row)| ensures RowText(row)[i] != '\n' && RowText(row)[i] != '\r' {
        if i < |a| { assert RowText(row)[i] == a[i]; }
        else if i < |a| + |b| { assert RowText(row)[i] == b[i - |a|]; }
      }
    }
  }

  /** A line without newlines, written after whole lines, reads back as one more line. */
  lemma LinesSnoc(s: string, r: string)
    requires s == [] || s[|s| - 1] == '\n'
    requires forall i :: 0 <= i < |r| ==> r[i] != '\n'
    ensures Lines(s + r + "\n") == Lines(s) + [r]
  {
    var t := s + r + "\n";
    assert t[..|t| - 1] == s + r;
    if s == [] {
      assert s + r == r;
      assert LastIndexOf(r, '\n') == -1;
    } else {
      var p := s[..|s| - 1];
      assert s + r == p + ['\n'] + r;
      SplitLast(p, '\n', r);
    }
  }

  lemma {:induction false} LinesOfSerialize(table: seq<seq<int>>)
    ensures Lines(Serialize(table)) == RowTexts(table)
    decreases |table|
  {
    if table != [] {
      var n := |table| - 1;
      var init := table[..n];
      LinesOfSerialize(init);
      RowTextChars(table[n]);
      var s := Serialize(init);
      assert s == [] || s[|s| - 1] == '\n';
      LinesSnoc(s, RowText(table[n]));
    }
  }

  /** A readable row followed by a readable field reads as the longer row. */
  lemma ParseFieldsSnoc(fs: seq<string>, f: string, vs: seq<int>, v: int)
    requires ParseFields(fs) == Some(vs) && ParseInt(f) == Some(v)
    ensures ParseFields(fs + [f]) == Some(vs + [v])
  {
    assert (fs + [f])[..|fs|] == fs;
  }

  lemma {:induction false} ParseFieldsOfStrings(row: seq<int>)
    ensures ParseFields(Strings(row)) == Some(row)
    decreases |row|
  {
    if row != [] {
      var n := |row| - 1;
      var init := row[..n];
      ParseFieldsOfStrings(init);
      IntToStringRoundTrip(row[n]);
      assert Strings(row) == Strings(init) + [IntToString(row[n])];
      ParseFieldsSnoc(Strings(init), IntToString(row[n]), init, row[n]);
      LastSplit(row);
    }
  }

  /** The lines of one more row add one more row of fields. */
  lemma FieldRowsSnoc(lines: seq<string>, line: string)
    ensures FieldRows(lines + [line]) == FieldRows(lines) + [Fields(line)]
  {
    assert (lines + [line])[..|lines|] == lines;
  }

  /** A readable table followed by a readable row reads as the longer table. */
  lemma ParseTableSnoc(rows: seq<seq<string>>, row: seq<string>, t: seq<seq<int>>, r: seq<int>)
    requires ParseTable(rows) == Some(t) && ParseFields(row) == Some(r)
    ensures ParseTable(rows + [row]) == Some(t + [r])
  {
    assert (rows + [row])[..|rows|] == rows;
  }

  /** One more non-empty row keeps the table readable from its row texts. */
  lemma RowTextsSnoc(init: seq<seq<int>>, row: seq<int>)
    requires row != []
    requires ParseTable(FieldRows(RowTexts(init))) == Some(init)
    ensures ParseTable(FieldRows(RowTexts(init + [row]))) == Some(init + [row])
  {
    var lines, line := RowTexts(init), RowText(row);
    assert (init + [row])[..|init|] == init;
    assert RowTexts(init + [row]) == lines + [line];
    FieldRowsSnoc(lines, line);
    FieldsOfRowText(row);
    ParseFieldsOfStrings(row);
    ParseTableSnoc(FieldRows(lines), Fields(line), init, row);
  }

  lemma {:induction false} ParseTableOfRowTexts(table: seq<seq<int>>)
    requires forall i :: 0 <= i < |table| ==> table[i] != []
    ensures ParseTable(FieldRows(RowTexts(table))) == Some(table)
    decreases |table|
  {
    if table != [] {
      var n := |table| - 1;
      var init := table[..n];
      assert forall i :: 0 <= i < |init| ==> init[i] == table[i];
      ParseTableOfRowTexts(init);
      RowTextsSnoc(init, table[n]);
      LastSplit(table);
    }
  }

  /**
   * Reading back what `saveToTxt` wrote returns the original table, for every table
   * whose rows are non-empty.
   */
  lemma SaveThenRead(table: seq<seq<int>>)
    requires forall i :: 0 <= i < |table| ==> table[i] != []
    ensures Parse(Serialize(table)) == Some(table)
    ensures Parse(Crlf(Serialize(table))) == Some(table)
  {
    SerializeChars(table);
    NewlinesPlain(Serialize(table));
    CrlfReadsAsLf(Serialize(table));
    LinesOfSerialize(table);
    ParseTableOfRowTexts(table);
  }

  /** `saveToTxt` writes no carriage return. */
  lemma {:induction false} SerializeChars(table: seq<seq<int>>)
    ensures forall i :: 0 <= i < |Serialize(table)| ==> Serialize(table)[i] != '\r'
    decreases |table|
  {
    if table != [] {
      var n := |table| - 1;
      SerializeChars(table[..n]);
      RowTextChars(table[n]);
      var a, b := Serialize(table[..n]), RowText(table[n]);
      assert Serialize(table) == a + b + "\n";
      forall i | 0 <= i < |Serialize(table)| ensures Serialize(table)[i] != '\r' {
        if i < |a| { assert Serialize(table)[i] == a[i]; }
        else if i < |a| + |b| { assert Serialize(table)[i] == b[i - |a|]; }
      }
    }
  }

  /** An empty row is written as a bare newline, which reads back as `int("")`: a ValueError. */
  lemma EmptyRowDoesNotReadBack()
    ensures Parse(Serialize([[]])) == None
  {
    var empty: seq<seq<int>> := [[]];
    SerializeChars(empty);
    NewlinesPlain(Serialize(empty));
    LinesOfSerialize(empty);
    EmptyLineFields();
    ParseFieldsFails([""], 0);
    ParseTableFails([[""]], 0);
  }

  /** The text of the table with one empty row is one empty line, whose fields are one empty string. */
  lemma EmptyLineFields()
    ensures RowTexts([[]]) == [""]
    ensures FieldRows([""]) == [[""]]
  {
    var empty: seq<seq<int>> := [[]];
    assert empty[..0] == [];
    assert Fields("") == [""];
    assert [""][..0] == [];
  }
}

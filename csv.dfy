/**
 * The pieces of text the exporter assembles with Kotlin string templates:
 * comma-joined cells, quoted cells, and `Long`/`Int` rendered in decimal.
 * `Split` and `ParseInt` read them back, so that a written line can be shown
 * to carry exactly the cells it was built from.
 */
module Csv {
  import opened Wrappers

  /** Cells joined by ',' as in "${a},${b},...". */
  function Join(cells: seq<string>): string
    requires |cells| > 0
  {
    if |cells| == 1 then cells[0] else cells[0] + "," + Join(cells[1..])
  }

  /** Joining adds only commas: a character other than ',' that no cell holds is not in the line. */
  lemma {:induction false} JoinAvoids(cells: seq<string>, ch: char)
    requires |cells| > 0
    ensures ch != ',' && (forall i :: 0 <= i < |cells| ==> ch !in cells[i]) ==> ch !in Join(cells)
  {
    if |cells| > 1 {
      JoinAvoids(cells[1..], ch);
      if ch != ',' && (forall i :: 0 <= i < |cells| ==> ch !in cells[i]) {
        assert forall i :: 0 <= i < |cells[1..]| ==> cells[1..][i] == cells[i + 1];
      }
    }
  }

  /** Cuts a line at every ','; a line without one is a single cell. */
  function Split(line: string): (cells: seq<string>)
    ensures |cells| > 0
  {
    if line == [] then [""]
    else
      var rest := Split(line[1..]);
      if line[0] == ',' then [""] + rest else [[line[0]] + rest[0]] + rest[1..]
  }

  /** A cell wrapped in double quotes, as the date cells are written. */
  function Quote(s: string): (q: string)
    ensures |q| == |s| + 2 && q[0] == '"' && q[|q| - 1] == '"' && q[1..|q| - 1] == s
    ensures ',' !in s ==> ',' !in q
    ensures '\n' !in s ==> '\n' !in q
  {
    "\"" + s + "\""
  }

  /** A comma-free prefix stays one cell: it is glued to the first cell of what follows. */
  lemma {:induction false} SplitCommaFreePrefix(a: string, tail: string)
    requires ',' !in a
    ensures Split(a + tail) == [a + Split(tail)[0]] + Split(tail)[1..]
  {
    if a == [] {
      var rest := Split(tail);
      assert a + tail == tail && a + rest[0] == rest[0];
      assert rest == [rest[0]] + rest[1..];
    } else {
      assert (a + tail)[0] == a[0];
      assert (a + tail)[1..] == a[1..] + tail;
      SplitCommaFreePrefix(a[1..], tail);
      assert [a[0]] + (a[1..] + Split(tail)[0]) == a + Split(tail)[0];
    }
  }

  /** Splitting a joined line gives back its cells when no cell holds a comma. */
  lemma {:induction false} SplitJoin(cells: seq<string>)
    requires |cells| > 0
    requires forall i :: 0 <= i < |cells| ==> ',' !in cells[i]
    ensures Split(Join(cells)) == cells
  {
    if |cells| == 1 {
      SplitCommaFreePrefix(cells[0], "");
      assert cells[0] + "" == cells[0];
    } else {
      var tail := "," + Join(cells[1..]);
      assert Join(cells) == cells[0] + tail;
      SplitCommaFreePrefix(cells[0], tail);
      assert tail[0] == ',' && tail[1..] == Join(cells[1..]);
      SplitJoin(cells[1..]);
      assert Split(tail) == [""] + cells[1..];
      assert cells[0] + "" == cells[0];
    }
  }

  predicate IsDigit(c: char) {
    '0' <= c <= '9'
  }

  predicate AllDigits(s: string) {
    forall i :: 0 <= i < |s| ==> IsDigit(s[i])
  }

  function DigitChar(d: int): (c: char)
    requires 0 <= d < 10
    ensures IsDigit(c)
  {
    ('0' as int + d) as char
  }

  function DigitValue(c: char): (d: int)
    requires IsDigit(c)
    ensures 0 <= d < 10
  {
    c as int - '0' as int
  }

  /** The decimal digits of a natural number, most significant first. */
  function NatString(n: nat): (s: string)
    ensures |s| > 0 && AllDigits(s)
  {
    if n < 10 then [DigitChar(n)] else NatString(n / 10) + [DigitChar(n % 10)]
  }

  /** `Long.toString()` / `Int.toString()`: a '-' sign only for negative values. */
  function IntString(n: int): (s: string)
    ensures ',' !in s && '\n' !in s
  {
    var s := if n < 0 then "-" + NatString(-n) else NatString(n);
    assert forall i :: 0 <= i < |s| ==> s[i] == '-' || IsDigit(s[i]);
    s
  }

  /** The value of a string of decimal digits. */
  function ParseDigits(s: string): nat
    requires AllDigits(s)
  {
    if s == [] then 0 else ParseDigits(s[..|s| - 1]) * 10 + DigitValue(s[|s| - 1])
  }

  /** Reads a decimal cell back: an optional '-' and at least one digit. */
  function ParseInt(s: string): Option<int> {
    if |s| > 1 && s[0] == '-' && AllDigits(s[1..]) then Some(-(ParseDigits(s[1..]) as int))
    else if |s| > 0 && AllDigits(s) then Some(ParseDigits(s))
    else None
  }

  lemma {:induction false} ParseNatString(n: nat)
    ensures ParseDigits(NatString(n)) == n
  {
    if n >= 10 {
      var s := NatString(n);
      assert s[..|s| - 1] == NatString(n / 10);
      ParseNatString(n / 10);
    }
  }

  /** Every integer cell the exporter writes reads back as the same integer. */
  lemma IntStringRoundTrip(n: int)
    ensures ParseInt(IntString(n)) == Some(n)
  {
    ParseNatString(if n < 0 then -n else n);
    if n < 0 {
      var s := IntString(n);
      assert s[1..] == NatString(-n);
    }
  }
}

/** The two-player game's record file: two integers, one per line
    (Teste_flap/flappy2.py, load_records and save_records). Only the text is
    modelled; the file itself is an optional string. */
module Records {

  datatype Option<T> = None | Some(value: T)

  // ---------------------------------------------------------------------------
  // Writing: Python's str() of an integer

  predicate IsDigit(c: char) {
    '0' <= c <= '9'
  }

  function DigitChar(d: nat): (c: char)
    requires d < 10
    ensures IsDigit(c)
  {
    "0123456789"[d]
  }

  function DigitValue(c: char): (d: nat)
    requires IsDigit(c)
    ensures d < 10
  {
    (c as int - '0' as int) as nat
  }

  /** The decimal digits of n, most significant first, without leading zeros. */
  function NatToString(n: nat): (s: string)
    ensures |s| > 0 && forall i :: 0 <= i < |s| ==> IsDigit(s[i])
  {
    if n < 10 then [DigitChar(n)] else NatToString(n / 10) + [DigitChar(n % 10)]
  }

  /** str(i): a minus sign for negative numbers, then the digits. */
  function IntToString(i: int): (s: string)
    ensures |s| > 0
    ensures s[0] == '-' <==> i < 0
    ensures forall k :: (if i < 0 then 1 else 0) <= k < |s| ==> IsDigit(s[k])
  {
    if i < 0 then "-" + NatToString(-i) else NatToString(i)
  }

  /** save_records: each record followed by a newline. The text ends with a
      newline and holds exactly two, so it is two lines. */
  function SaveRecords(record1: int, record2: int): (s: string)
    ensures |s| > 0 && s[|s| - 1] == '\n' && multiset(s)['\n'] == 2
  {
    NoSpaceInNumber(record1);
    NoSpaceInNumber(record2);
    IntToString(record1) + "\n" + IntToString(record2) + "\n"
  }

  // ---------------------------------------------------------------------------
  // Reading: readlines, strip and int()

  /** The index of the first newline in s, or |s| when there is none. */
  function NewlineIndex(s: string): (k: nat)
    ensures k <= |s| && '\n' !in s[..k]
    ensures k < |s| ==> s[k] == '\n'
  {
    if s == [] then 0
    else if s[0] == '\n' then 0
    else
      assert s[..1 + NewlineIndex(s[1..])] == [s[0]] + s[1..][..NewlineIndex(s[1..])];
      1 + NewlineIndex(s[1..])
  }

  /** The lines joined back together. */
  function Concat(lines: seq<string>): string {
    if lines == [] then [] else lines[0] + Concat(lines[1..])
  }

  /** readlines: the text cut after each newline, which each line keeps; a
      last line without a newline is kept as it is. */
  function ReadLines(s: string): (lines: seq<string>)
    ensures forall i :: 0 <= i < |lines| ==> |lines[i]| > 0
    decreases |s|
  {
    if s == [] then []
    else
      var k := NewlineIndex(s);
      if k == |s| then [s] else [s[..k + 1]] + ReadLines(s[k + 1..])
  }

  /** Joined back, the lines are the text. */
  lemma {:induction false} ReadLinesJoin(s: string)
    ensures Concat(ReadLines(s)) == s
    decreases |s|
  {
    if s != [] {
      var k := NewlineIndex(s);
      if k < |s| {
        var first, rest := s[..k + 1], ReadLines(s[k + 1..]);
        ReadLinesJoin(s[k + 1..]);
        assert ([first] + rest)[1..] == rest;
        assert s == first + s[k + 1..];
      }
    }
  }

  /** Each line is nonempty and holds a newline only at its end, and every
      line but the last ends with one. */
  predicate WellCut(lines: seq<string>) {
    (forall i :: 0 <= i < |lines| ==> |lines[i]| > 0 && '\n' !in lines[i][..|lines[i]| - 1])
    && (forall i :: 0 <= i < |lines| - 1 ==> lines[i][|lines[i]| - 1] == '\n')
  }

  /** readlines cuts the text into well-cut lines. */
  lemma {:induction false} ReadLinesShape(s: string)
    ensures WellCut(ReadLines(s))
    decreases |s|
  {
    if s != [] {
      var k, lines := NewlineIndex(s), ReadLines(s);
      if k == |s| {
        assert lines == [s];
        assert s[..k] == s[..|s| - 1] + [s[|s| - 1]];
      } else {
        var first, rest := s[..k + 1], ReadLines(s[k + 1..]);
        ReadLinesShape(s[k + 1..]);
        assert lines == [first] + rest;
        assert first[..|first| - 1] == s[..k];
        assert forall i :: 1 <= i < |lines| ==> lines[i] == rest[i - 1];
      }
    }
  }

  /** The ASCII characters str.strip() removes: space, tab, newline, carriage
      return, vertical tab, form feed, and the separators U+001C to U+001F. */
  predicate IsSpace(c: char) {
    c == ' ' || c == '\t' || c == '\n' || c == '\r' || c == '\U{B}' || c == '\U{C}' || '\U{1C}' <= c <= '\U{1F}'
  }

  function StripLeft(s: string): (r: string)
    ensures |r| <= |s| && r == s[|s| - |r|..]
    ensures r == [] || !IsSpace(r[0])
    ensures forall k :: 0 <= k < |s| - |r| ==> IsSpace(s[k])
  {
    if s != [] && IsSpace(s[0]) then StripLeft(s[1..]) else s
  }

  function StripRight(s: string): (r: string)
    ensures |r| <= |s| && r == s[..|r|]
    ensures r == [] || !IsSpace(r[|r| - 1])
    ensures forall k :: |r| <= k < |s| ==> IsSpace(s[k])
  {
    if s != [] && IsSpace(s[|s| - 1]) then StripRight(s[..|s| - 1]) else s
  }

  /** str.strip(): whitespace removed from both ends. */
  function Strip(s: string): (r: string)
    ensures |r| <= |s|
    ensures r == [] || (!IsSpace(r[0]) && !IsSpace(r[|r| - 1]))
    ensures s == [] || (!IsSpace(s[0]) && !IsSpace(s[|s| - 1])) ==> r == s
    ensures (forall k :: 0 <= k < |s| ==> IsSpace(s[k])) ==> r == []
  {
    StripRight(StripLeft(s))
  }

  /** Every character of s is a decimal digit. */
  predicate AllDigits(s: string) {
    forall i :: 0 <= i < |s| ==> IsDigit(s[i])
  }

  /** The value of a string of decimal digits. */
  function DigitsValue(s: string): nat
    requires AllDigits(s)
  {
    if s == [] then 0 else DigitsValue(s[..|s| - 1]) * 10 + DigitValue(s[|s| - 1])
  }

  /** int() of a stripped string: an optional sign, then one or more decimal
      digits; anything else is an error. */
  function ParseInt(s: string): (r: Option<int>)
    ensures r.Some? ==> |s| > 0
  {
    var signed := |s| > 0 && (s[0] == '-' || s[0] == '+');
    var digits := if signed then s[1..] else s;
    if digits == [] || !AllDigits(digits) then None
    else
      var magnitude: int := DigitsValue(digits);
      Some(if signed && s[0] == '-' then -magnitude else magnitude)
  }

  /** What int() accepts: an optional sign followed by digits only, a
      negative value only after a minus; a digit string and a minus followed
      by digits read as their decimal value. */
  lemma ParseIntMeans(s: string)
    ensures ParseInt(s).Some? ==> |s| > 0 && (IsDigit(s[0]) || s[0] == '-' || s[0] == '+')
    ensures ParseInt(s).Some? ==> forall i :: 1 <= i < |s| ==> IsDigit(s[i])
    ensures ParseInt(s).Some? && ParseInt(s).value < 0 ==> s[0] == '-'
    ensures |s| > 0 && AllDigits(s) ==> ParseInt(s) == Some(DigitsValue(s))
    ensures |s| > 1 && s[0] == '-' && AllDigits(s[1..]) ==> ParseInt(s) == Some(-(DigitsValue(s[1..]) as int))
  {
    if |s| > 0 && (s[0] == '-' || s[0] == '+') {
      assert forall i :: 1 <= i < |s| ==> s[i] == s[1..][i - 1];
    } else if ParseInt(s).Some? {
      assert AllDigits(s);
      assert IsDigit(s[0]);
    }
  }

  /** load_records: the integers of the first two lines, stripped; (0, 0)
      when there is no file, fewer than two lines, or a line that is not an
      integer. */
  function LoadRecords(file: Option<string>): (r: (int, int))
    ensures file.None? ==> r == (0, 0)
    ensures file.Some? && |ReadLines(file.value)| < 2 ==> r == (0, 0)
    ensures file.Some? && |ReadLines(file.value)| >= 2 && ParseInt(Strip(ReadLines(file.value)[0])).None? ==> r == (0, 0)
  {
    match file
    case None => (0, 0)
    case Some(text) =>
      var lines := ReadLines(text);
      if |lines| < 2 then (0, 0)
      else
        match (ParseInt(Strip(lines[0])), ParseInt(Strip(lines[1])))
        case (Some(record1), Some(record2)) => (record1, record2)
        case _ => (0, 0)
  }

  // ---------------------------------------------------------------------------
  // Properties

  /** The digits of n read back as n. */
  lemma {:induction false} DigitsOfNat(n: nat)
    ensures DigitsValue(NatToString(n)) == n
  {
    if n >= 10 {
      var s := NatToString(n);
      DigitsOfNat(n / 10);
      assert s[..|s| - 1] == NatToString(n / 10);
    }
  }

  /** int() reads back what str() wrote, for every integer. */
  lemma ParseIntToString(i: int)
    ensures ParseInt(IntToString(i)) == Some(i)
  {
    var s := IntToString(i);
    if i < 0 {
      assert s[1..] == NatToString(-i);
      DigitsOfNat(-i);
    } else {
      DigitsOfNat(i);
    }
  }

  /** strip() takes the newline off a line whose other characters are not
      whitespace, and nothing else. */
  lemma StripLine(a: string)
    requires a != [] && forall i :: 0 <= i < |a| ==> !IsSpace(a[i])
    ensures Strip(a + "\n") == a
  {
    var l := a + "\n";
    assert StripLeft(l) == l;
    assert l[..|l| - 1] == a;
    assert StripRight(a) == a;
  }

  /** readlines cuts a text right after its first newline. */
  lemma {:induction false} ReadLinesCons(a: string, rest: string)
    requires '\n' !in a
    ensures ReadLines(a + "\n" + rest) == [a + "\n"] + ReadLines(rest)
  {
    var s := a + "\n" + rest;
    NewlineAt(a, rest);
    assert s[|a| + 1..] == rest;
  }

  /** The first newline of a + "\n" + rest is the one after a. */
  lemma {:induction false} NewlineAt(a: string, rest: string)
    requires '\n' !in a
    ensures NewlineIndex(a + "\n" + rest) == |a|
    ensures (a + "\n" + rest)[..|a| + 1] == a + "\n"
  {
    if a != [] {
      assert (a + "\n" + rest)[1..] == a[1..] + "\n" + rest;
      assert '\n' !in a[1..] by {
        assert forall i :: 0 <= i < |a| - 1 ==> a[1..][i] == a[i + 1];
      }
      NewlineAt(a[1..], rest);
    }
  }

  /** The saved text reads back as two lines, one per record. */
  lemma SavedLines(record1: int, record2: int)
    ensures ReadLines(SaveRecords(record1, record2)) == [IntToString(record1) + "\n", IntToString(record2) + "\n"]
  {
    NoSpaceInNumber(record1);
    NoSpaceInNumber(record2);
    TwoLines(IntToString(record1), IntToString(record2));
  }

  /** Two newline-free strings, each followed by a newline, read back as two
      lines. */
  lemma TwoLines(a: string, b: string)
    requires '\n' !in a && '\n' !in b
    ensures ReadLines(a + "\n" + b + "\n") == [a + "\n", b + "\n"]
  {
    assert a + "\n" + b + "\n" == a + "\n" + (b + "\n" + []);
    assert ReadLines(b + "\n" + []) == [b + "\n"] by {
      ReadLinesCons(b, []);
    }
    ReadLinesCons(a, b + "\n" + []);
  }

  /** A saved line reads back as its record. */
  lemma ParseSavedLine(record: int)
    ensures ParseInt(Strip(IntToString(record) + "\n")) == Some(record)
  {
    NoSpaceInNumber(record);
    StripLine(IntToString(record));
    ParseIntToString(record);
  }

  /** Loading what was saved gives back the same pair of records. */
  lemma LoadSaved(record1: int, record2: int)
    ensures LoadRecords(Some(SaveRecords(record1, record2))) == (record1, record2)
  {
    SavedLines(record1, record2);
    ParseSavedLine(record1);
    ParseSavedLine(record2);
  }

  /** Only the first two lines count: whatever follows them is ignored. */
  lemma LoadIgnoresRest(record1: int, record2: int, rest: string)
    ensures LoadRecords(Some(SaveRecords(record1, record2) + rest)) == (record1, record2)
  {
    var a, b := IntToString(record1), IntToString(record2);
    NoSpaceInNumber(record1);
    NoSpaceInNumber(record2);
    assert SaveRecords(record1, record2) + rest == a + "\n" + (b + "\n" + rest);
    ReadLinesCons(a, b + "\n" + rest);
    ReadLinesCons(b, rest);
    ParseSavedLine(record1);
    ParseSavedLine(record2);
  }

  /** str() of an integer holds neither whitespace nor a newline. */
  lemma NoSpaceInNumber(i: int)
    ensures var s := IntToString(i); s != [] && '\n' !in s && forall k :: 0 <= k < |s| ==> !IsSpace(s[k])
  {
    var s := IntToString(i);
    assert forall k :: 0 <= k < |s| ==> s[k] == '-' || IsDigit(s[k]);
  }

  /** Text that does not hold two lines loads as no records at all. */
  lemma ShortFileLoadsZero(text: string)
    requires '\n' !in text
    ensures LoadRecords(Some(text)) == (0, 0)
  {
  }
}

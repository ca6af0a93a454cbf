/** Character-level helpers shared by the persistence format: the decimal
    text `operator<<` writes for an `int`, the C library's `atoi` that reads
    it back, and the line splitting of `std::getline`. */
module Text {

  predicate IsDigit(c: char) {
    '0' <= c <= '9'
  }

  /** The characters `isspace` accepts in the "C" locale. */
  predicate IsSpace(c: char) {
    c == ' ' || c == '\t' || c == '\n' || c == '\U{B}' || c == '\U{C}' || c == '\r'
  }

  /** `c - '0'`: the character's code minus the code of '0', for any character. */
  function CharOffset(c: char): int {
    c as int - '0' as int
  }

  /** `s[i]` on a `std::string`: index `size()` reads the terminating '\0'. */
  function CharAt(s: string, i: nat): char
    requires i <= |s|
  {
    if i < |s| then s[i] else '\0'
  }

  function DigitChar(d: nat): (c: char)
    requires d < 10
    ensures IsDigit(c) && CharOffset(c) == d
  {
    ('0' as int + d) as char
  }

  predicate AllDigits(s: string) {
    forall i :: 0 <= i < |s| ==> IsDigit(s[i])
  }

  /** Decimal text of a natural number, most significant digit first. */
  function NatToString(n: nat): (s: string)
    ensures |s| > 0 && AllDigits(s)
    ensures |s| > 1 ==> s[0] != '0'
    ensures (s[0] == '0') == (n == 0)
  {
    if n < 10 then [DigitChar(n)] else NatToString(n / 10) + [DigitChar(n % 10)]
  }

  /** What `std::ostream << int` writes: a '-' before the digits of a negative value. */
  function IntToString(n: int): (s: string)
    ensures |s| > 0 && (s[0] == '-' || IsDigit(s[0]))
  {
    if n < 0 then "-" + NatToString(-n) else NatToString(n)
  }

  /** The value of a string of decimal digits. */
  function DigitsValue(s: string): (v: nat)
    requires AllDigits(s)
  {
    if s == [] then 0 else DigitsValue(s[..|s| - 1]) * 10 + CharOffset(s[|s| - 1])
  }

  /** How many decimal digits `s` starts with. */
  function LeadingDigits(s: string): (k: nat)
    ensures k <= |s| && AllDigits(s[..k])
    ensures k < |s| ==> !IsDigit(s[k])
  {
    if s == [] || !IsDigit(s[0]) then 0
    else
      var k := 1 + LeadingDigits(s[1..]);
      assert s[..k] == [s[0]] + s[1..][..k - 1];
      k
  }

  function SkipSpaces(s: string): (t: string)
    ensures |t| <= |s| && t == s[|s| - |t|..]
    ensures t != [] ==> !IsSpace(t[0])
  {
    if s != [] && IsSpace(s[0]) then SkipSpaces(s[1..]) else s
  }

  /** `std::atoi`: skip white space, read an optional sign, then the longest
      run of digits; a string with no digits there reads as 0. */
  function Atoi(s: string): (v: int)
    ensures SkipSpaces(s) == [] ==> v == 0
  {
    var t := SkipSpaces(s);
    if t != [] && (t[0] == '-' || t[0] == '+') then
      var body := t[1..];
      var magnitude: int := DigitsValue(body[..LeadingDigits(body)]);
      if t[0] == '-' then -magnitude else magnitude
    else
      DigitsValue(t[..LeadingDigits(t)])
  }

  lemma {:induction false} NatToStringValue(n: nat)
    ensures DigitsValue(NatToString(n)) == n
  {
    var s := NatToString(n);
    if n >= 10 {
      assert s[..|s| - 1] == NatToString(n / 10);
      NatToStringValue(n / 10);
    }
  }

  lemma {:induction false} LeadingDigitsOfDigits(s: string)
    requires AllDigits(s)
    ensures LeadingDigits(s) == |s|
  {
    if s != [] {
      LeadingDigitsOfDigits(s[1..]);
    }
  }

  lemma AtoiDigits(s: string)
    requires s != [] && AllDigits(s)
    ensures Atoi(s) == DigitsValue(s)
  {
    assert SkipSpaces(s) == s;
    LeadingDigitsOfDigits(s);
    assert s[..|s|] == s;
  }

  lemma AtoiNegativeDigits(s: string)
    requires s != [] && AllDigits(s)
    ensures Atoi("-" + s) == -(DigitsValue(s) as int)
  {
    var t := "-" + s;
    assert SkipSpaces(t) == t;
    assert t[1..] == s;
    LeadingDigitsOfDigits(s);
    assert s[..|s|] == s;
  }

  /** `atoi` reads back exactly the value `<<` wrote, for every integer. */
  lemma AtoiIntToString(n: int)
    ensures Atoi(IntToString(n)) == n
  {
    if n < 0 {
      AtoiNegativeDigits(NatToString(-n));
      NatToStringValue(-n);
    } else {
      AtoiDigits(NatToString(n));
      NatToStringValue(n);
    }
  }

  /** Index of the first '\n' in `t`, or `|t|` when there is none. */
  function FirstNewline(t: string): (k: nat)
    ensures k <= |t|
    ensures forall i :: 0 <= i < k ==> t[i] != '\n'
    ensures k < |t| ==> t[k] == '\n'
  {
    if t == [] || t[0] == '\n' then 0 else 1 + FirstNewline(t[1..])
  }

  /** The lines `while (getline(file, line))` yields from text `t`: each line
      without its '\n'; a last line without '\n' still counts; a text that
      ends in '\n' yields no empty line after it. */
  function GetLines(t: string): (lines: seq<string>)
    ensures forall i :: 0 <= i < |lines| ==> '\n' !in lines[i]
    decreases |t|
  {
    if t == [] then []
    else
      var k := FirstNewline(t);
      if k == |t| then [t] else [t[..k]] + GetLines(t[k + 1..])
  }

  /** The text a sequence of lines makes when each is written followed by '\n'. */
  function JoinLines(lines: seq<string>): string {
    if lines == [] then "" else lines[0] + "\n" + JoinLines(lines[1..])
  }

  predicate NoNewlines(lines: seq<string>) {
    forall i :: 0 <= i < |lines| ==> '\n' !in lines[i]
  }

  lemma FirstNewlineAfter(line: string, rest: string)
    requires '\n' !in line
    ensures FirstNewline(line + "\n" + rest) == |line|
  {
    var t := line + "\n" + rest;
    var k := FirstNewline(t);
    assert t[|line|] == '\n';
    assert forall i :: 0 <= i < |line| ==> t[i] == line[i];
  }

  /** Reading back the written lines with `getline` gives exactly those lines,
      when none of them holds a '\n' of its own. */
  lemma {:induction false} GetLinesJoinLines(lines: seq<string>)
    requires NoNewlines(lines)
    ensures GetLines(JoinLines(lines)) == lines
  {
    if lines != [] {
      var t := JoinLines(lines);
      var line := lines[0];
      FirstNewlineAfter(line, JoinLines(lines[1..]));
      assert t[..|line|] == line;
      assert t[|line| + 1..] == JoinLines(lines[1..]);
      GetLinesJoinLines(lines[1..]);
    }
  }
}

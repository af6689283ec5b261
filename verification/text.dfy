/**
 * The Python string operations the core relies on, restricted to ASCII:
 * `strip`, `startswith`, `split(",")`, `lower`/`upper`, `isalnum`, `rstrip(c)`,
 * `int(...)`, `float(...)` and `str(int)`.
 */
module Text {
  import opened Wrappers

  /** The ASCII characters Python's `str.isspace` accepts. */
  predicate IsSpace(c: char) {
    c == ' ' || c == '\t' || c == '\n' || c == '\r' || c == '\U{000B}' || c == '\U{000C}'
    || ('\U{001C}' <= c <= '\U{001F}')
  }

  function TrimLeft(s: string): (r: string)
    ensures |r| <= |s| && r == s[|s| - |r|..]
    ensures r == [] || !IsSpace(r[0])
    ensures forall i :: 0 <= i < |s| - |r| ==> IsSpace(s[i])
  {
    if s != [] && IsSpace(s[0]) then TrimLeft(s[1..]) else s
  }

  function TrimRight(s: string): (r: string)
    ensures |r| <= |s| && r == s[..|r|]
    ensures r == [] || !IsSpace(r[|r| - 1])
    ensures forall i :: |r| <= i < |s| ==> IsSpace(s[i])
  {
    if s != [] && IsSpace(s[|s| - 1]) then TrimRight(s[..|s| - 1]) else s
  }

  /** `s.strip()`: drops leading and trailing whitespace, nothing else. */
  function Strip(s: string): (r: string)
    ensures r == [] || (!IsSpace(r[0]) && !IsSpace(r[|r| - 1]))
    ensures |r| <= |s|
  {
    TrimRight(TrimLeft(s))
  }

  predicate NoSpace(s: string) {
    forall i :: 0 <= i < |s| ==> !IsSpace(s[i])
  }

  lemma StripNoSpace(s: string)
    requires NoSpace(s)
    ensures Strip(s) == s
  {
  }

  /** A stripped string is a fixed point of `strip`. */
  lemma StripIdempotent(s: string)
    ensures Strip(Strip(s)) == Strip(s)
  {
    var r := Strip(s);
    if r != [] {
      assert TrimLeft(r) == r;
      assert TrimRight(r) == r;
    }
  }

  predicate StartsWith(s: string, prefix: string) {
    |prefix| <= |s| && s[..|prefix|] == prefix
  }

  predicate EndsWith(s: string, c: char) {
    |s| > 0 && s[|s| - 1] == c
  }

  /** `s.rstrip(c)`: drops every trailing `c`. */
  function RStrip(s: string, c: char): (r: string)
    ensures !EndsWith(r, c)
    ensures |r| <= |s| && r == s[..|r|]
    ensures forall i :: |r| <= i < |s| ==> s[i] == c
  {
    if EndsWith(s, c) then RStrip(s[..|s| - 1], c) else s
  }

  /** `s.replace(c, "")`. */
  function Remove(s: string, c: char): (r: string)
    ensures c !in r
    ensures forall x :: x in r <==> x in s && x != c
  {
    if s == [] then [] else (if s[0] == c then [] else [s[0]]) + Remove(s[1..], c)
  }

  predicate IsAsciiAlnum(c: char) {
    ('a' <= c <= 'z') || ('A' <= c <= 'Z') || ('0' <= c <= '9')
  }

  /** `s.isalnum()` on ASCII: non-empty, letters and digits only. */
  predicate IsAlnum(s: string) {
    |s| > 0 && forall i :: 0 <= i < |s| ==> IsAsciiAlnum(s[i])
  }

  function LowerChar(c: char): char {
    if 'A' <= c <= 'Z' then (c as int + 32) as char else c
  }

  function UpperChar(c: char): char {
    if 'a' <= c <= 'z' then (c as int - 32) as char else c
  }

  function Lower(s: string): (r: string)
    ensures |r| == |s|
  {
    seq(|s|, i requires 0 <= i < |s| => LowerChar(s[i]))
  }

  function Upper(s: string): (r: string)
    ensures |r| == |s|
  {
    seq(|s|, i requires 0 <= i < |s| => UpperChar(s[i]))
  }

  /** No ASCII capital letter occurs in `s`. */
  predicate NoUpper(s: string) {
    forall i :: 0 <= i < |s| ==> !('A' <= s[i] <= 'Z')
  }

  /** `lower` leaves no capital letter, and lower-cased text is its own lower case. */
  lemma LowerNoUpper(s: string)
    ensures NoUpper(Lower(s))
    ensures NoUpper(s) ==> Lower(s) == s
  {
  }

  lemma LowerIdempotent(s: string)
    ensures Lower(Lower(s)) == Lower(s)
  {
    LowerNoUpper(s);
    LowerNoUpper(Lower(s));
  }

  /** Lower-casing and stripping commute: `lower` never turns a space into a non-space or back. */
  lemma StripLower(s: string)
    ensures Strip(Lower(s)) == Lower(Strip(s))
  {
    TrimLeftLower(s);
    TrimRightLower(TrimLeft(s));
  }

  lemma {:induction false} TrimLeftLower(s: string)
    ensures TrimLeft(Lower(s)) == Lower(TrimLeft(s))
  {
    if s != [] && IsSpace(s[0]) {
      assert Lower(s)[1..] == Lower(s[1..]);
      TrimLeftLower(s[1..]);
    }
  }

  lemma {:induction false} TrimRightLower(s: string)
    ensures TrimRight(Lower(s)) == Lower(TrimRight(s))
  {
    if s != [] && IsSpace(s[|s| - 1]) {
      assert Lower(s)[..|s| - 1] == Lower(s[..|s| - 1]);
      TrimRightLower(s[..|s| - 1]);
    }
  }

  // ---------------------------------------------------------------------------
  // s.split(sep) for a one-character separator

  /** `s.split(sep)`: the pieces between separators, always at least one. */
  function Split(s: string, sep: char): (r: seq<string>)
    ensures |r| >= 1
    ensures forall i :: 0 <= i < |r| ==> sep !in r[i]
  {
    if s == [] then [[]]
    else
      var rest := Split(s[1..], sep);
      if s[0] == sep then [[]] + rest
      else [[s[0]] + rest[0]] + rest[1..]
  }

  /** `sep.join(pieces)`. */
  function Join(pieces: seq<string>, sep: char): string
    requires |pieces| >= 1
  {
    if |pieces| == 1 then pieces[0] else pieces[0] + [sep] + Join(pieces[1..], sep)
  }

  /** Splitting loses nothing: joining the pieces gives back the input. */
  lemma {:induction false} JoinSplit(s: string, sep: char)
    ensures Join(Split(s, sep), sep) == s
  {
    if s != [] {
      var rest := Split(s[1..], sep);
      JoinSplit(s[1..], sep);
      if s[0] == sep {
        assert Split(s, sep) == [[]] + rest;
        assert Join(Split(s, sep), sep) == [] + [sep] + Join(rest, sep);
      } else {
        JoinConsHead(s[0], rest, sep);
      }
    }
  }

  lemma {:induction false} JoinConsHead(c: char, pieces: seq<string>, sep: char)
    requires |pieces| >= 1
    ensures Join([[c] + pieces[0]] + pieces[1..], sep) == [c] + Join(pieces, sep)
  {
    var ps := [[c] + pieces[0]] + pieces[1..];
    if |pieces| > 1 {
      assert ps[1..] == pieces[1..];
    }
  }

  /** The separator is a homomorphism: splitting `a + sep + b` splits each side. */
  lemma {:induction false} SplitAppend(a: string, b: string, sep: char)
    ensures Split(a + [sep] + b, sep) == Split(a, sep) + Split(b, sep)
  {
    if a == [] {
      assert a + [sep] + b == [sep] + b;
      assert ([sep] + b)[1..] == b;
    } else {
      assert (a + [sep] + b)[1..] == a[1..] + [sep] + b;
      SplitAppend(a[1..], b, sep);
    }
  }

  /** The trimmed, non-blank pieces of a list, in order. */
  function NonBlank(pieces: seq<string>): (r: seq<string>)
    ensures forall i :: 0 <= i < |r| ==> r[i] != []
  {
    if pieces == [] then []
    else
      var head := Strip(pieces[0]);
      (if head == [] then [] else [head]) + NonBlank(pieces[1..])
  }

  lemma {:induction false} NonBlankAppend(a: seq<string>, b: seq<string>)
    ensures NonBlank(a + b) == NonBlank(a) + NonBlank(b)
  {
    if a == [] {
      assert a + b == b;
    } else {
      assert (a + b)[0] == a[0];
      assert (a + b)[1..] == a[1..] + b;
      NonBlankAppend(a[1..], b);
      var head := if Strip(a[0]) == [] then [] else [Strip(a[0])];
      calc {
        NonBlank(a + b);
        head + NonBlank(a[1..] + b);
        head + (NonBlank(a[1..]) + NonBlank(b));
        (head + NonBlank(a[1..])) + NonBlank(b);
      }
    }
  }

  /** `[p.strip() for p in s.split(",") if p.strip()]`. */
  function CsvItems(s: string): (r: seq<string>)
    ensures forall i :: 0 <= i < |r| ==> r[i] != [] && ',' !in r[i]
  {
    CsvItemsNoComma(s);
    NonBlank(Split(s, ','))
  }

  lemma CsvItemsNoComma(s: string)
    ensures forall i :: 0 <= i < |NonBlank(Split(s, ','))| ==> ',' !in NonBlank(Split(s, ','))[i]
  {
    NonBlankKeepsOut(Split(s, ','), ',');
  }

  /** Stripping and dropping blanks never introduces a character. */
  lemma {:induction false} NonBlankKeepsOut(pieces: seq<string>, c: char)
    requires forall i :: 0 <= i < |pieces| ==> c !in pieces[i]
    ensures forall i :: 0 <= i < |NonBlank(pieces)| ==> c !in NonBlank(pieces)[i]
  {
    if pieces != [] {
      NonBlankKeepsOut(pieces[1..], c);
      StripSubset(pieces[0]);
    }
  }

  /** Every CSV item is already stripped. */
  lemma {:induction false} NonBlankStripped(pieces: seq<string>)
    ensures forall x :: x in NonBlank(pieces) ==> Strip(x) == x
  {
    if pieces != [] {
      NonBlankStripped(pieces[1..]);
      StripIdempotent(pieces[0]);
    }
  }

  lemma StripSubset(s: string)
    ensures forall c :: c in Strip(s) ==> c in s
  {
    var l := TrimLeft(s);
    assert forall c :: c in TrimRight(l) ==> c in l;
    assert forall c :: c in l ==> c in s;
  }

  /** A character absent from `s` is absent from every piece of its split. */
  lemma {:induction false} SplitKeepsOut(s: string, sep: char, c: char)
    requires c !in s
    ensures forall i :: 0 <= i < |Split(s, sep)| ==> c !in Split(s, sep)[i]
  {
    if s != [] {
      SplitKeepsOut(s[1..], sep, c);
    }
  }

  /** Every CSV item is made of characters of the input. */
  lemma CsvItemsChars(s: string)
    ensures forall i, c :: 0 <= i < |CsvItems(s)| && c in CsvItems(s)[i] ==> c in s
  {
    forall i, c | 0 <= i < |CsvItems(s)| && c !in s ensures c !in CsvItems(s)[i] {
      SplitKeepsOut(s, ',', c);
      NonBlankKeepsOut(Split(s, ','), c);
    }
  }

  /** CSV items of a comma-free string: its stripped self, unless blank. */
  lemma CsvItemsSingle(s: string)
    requires ',' !in s
    ensures CsvItems(s) == if Strip(s) == [] then [] else [Strip(s)]
  {
    SplitNoSep(s, ',');
    assert [s][1..] == [];
    assert NonBlank([s]) == (if Strip(s) == [] then [] else [Strip(s)]) + NonBlank([]);
  }

  lemma {:induction false} SplitNoSep(s: string, sep: char)
    requires sep !in s
    ensures Split(s, sep) == [s]
  {
    if s != [] {
      SplitNoSep(s[1..], sep);
      assert [s[0]] + s[1..] == s;
    }
  }

  /** CSV items of `a + "," + b` are the items of `a` followed by those of `b`. */
  lemma CsvItemsAppend(a: string, b: string)
    ensures CsvItems(a + [','] + b) == CsvItems(a) + CsvItems(b)
  {
    SplitAppend(a, b, ',');
    NonBlankAppend(Split(a, ','), Split(b, ','));
  }

  // ---------------------------------------------------------------------------
  // int(...), float(...) and str(int), on ASCII decimal text

  predicate IsDigit(c: char) {
    '0' <= c <= '9'
  }

  predicate IsDigits(s: string) {
    forall i :: 0 <= i < |s| ==> IsDigit(s[i])
  }

  function DigitValue(c: char): nat
    requires IsDigit(c)
  {
    c as int - '0' as int
  }

  function DigitsValue(s: string): nat
    requires IsDigits(s)
  {
    if s == [] then 0 else DigitsValue(s[..|s| - 1]) * 10 + DigitValue(s[|s| - 1])
  }

  function Pow10(n: nat): (r: nat)
    ensures r >= 1
  {
    if n == 0 then 1 else 10 * Pow10(n - 1)
  }

  /** The value of an unsigned digit run, or None when it is not one. */
  function UnsignedInt(t: string): Option<int> {
    if |t| > 0 && IsDigits(t) then Some(DigitsValue(t)) else None
  }

  /** `int(s)`: optional surrounding whitespace, optional sign, ASCII digits. */
  function ParseInt(s: string): (r: Option<int>)
    ensures r.Some? ==> Strip(s) != []
  {
    var t := Strip(s);
    if |t| > 0 && (t[0] == '+' || t[0] == '-') then
      match UnsignedInt(t[1..])
      case Some(v) => Some(if t[0] == '-' then -v else v)
      case None => None
    else UnsignedInt(t)
  }

  /** The value of `digits[.digits]` with at least one digit, or None. */
  function UnsignedDecimal(t: string): Option<real> {
    if '.' !in t then
      if |t| > 0 && IsDigits(t) then Some(DigitsValue(t) as real) else None
    else
      var k := IndexOf(t, '.');
      var whole, frac := t[..k], t[k + 1..];
      if |whole| + |frac| > 0 && IsDigits(whole) && IsDigits(frac) then
        Some(DigitsValue(whole) as real + DigitsValue(frac) as real / Pow10(|frac|) as real)
      else None
  }

  function IndexOf(s: string, c: char): (k: nat)
    requires c in s
    ensures k < |s| && s[k] == c && c !in s[..k]
  {
    if s[0] == c then 0 else 1 + IndexOf(s[1..], c)
  }

  /** `float(s)` on plain decimal notation. */
  function ParseFloat(s: string): (r: Option<real>)
    ensures r.Some? ==> Strip(s) != []
  {
    var t := Strip(s);
    if |t| > 0 && (t[0] == '+' || t[0] == '-') then
      match UnsignedDecimal(t[1..])
      case Some(v) => Some(if t[0] == '-' then -v else v)
      case None => None
    else UnsignedDecimal(t)
  }

  /** A run of ASCII digits reads as its value under `int()`. */
  lemma ParseIntDigits(s: string)
    requires s != [] && IsDigits(s)
    ensures ParseInt(s) == Some(DigitsValue(s))
  {
    assert NoSpace(s);
    StripNoSpace(s);
  }

  /** A run of ASCII digits reads as its value under `float()`. */
  lemma ParseFloatDigits(s: string)
    requires s != [] && IsDigits(s)
    ensures ParseFloat(s) == Some(DigitsValue(s) as real)
  {
    assert NoSpace(s);
    StripNoSpace(s);
    assert '.' !in s;
  }

  /** Text without whitespace or a sign reads under `float()` as an unsigned decimal. */
  lemma ParseFloatUnsigned(s: string)
    requires s != [] && NoSpace(s) && s[0] != '+' && s[0] != '-'
    ensures ParseFloat(s) == UnsignedDecimal(s)
  {
    StripNoSpace(s);
  }

  /** A two-digit run is worth ten times its first digit plus its second. */
  lemma TwoDigits(s: string)
    requires |s| == 2 && IsDigits(s)
    ensures DigitsValue(s) == DigitValue(s[0]) * 10 + DigitValue(s[1])
  {
    var init := s[..1];
    assert init[..0] == [] && init[0] == s[0];
    assert DigitsValue(init) == DigitValue(s[0]);
  }

  function DigitChar(d: nat): (c: char)
    requires d < 10
    ensures IsDigit(c) && DigitValue(c) == d
  {
    ('0' as int + d) as char
  }

  /** `str(n)` for n >= 0. */
  function NatToDecimal(n: nat): (r: string)
    ensures |r| > 0 && IsDigits(r)
  {
    if n < 10 then [DigitChar(n)] else NatToDecimal(n / 10) + [DigitChar(n % 10)]
  }

  /** `str(i)`. */
  function IntToDecimal(i: int): string {
    if i < 0 then "-" + NatToDecimal(-i) else NatToDecimal(i)
  }

  lemma {:induction false} NatToDecimalValue(n: nat)
    ensures DigitsValue(NatToDecimal(n)) == n
  {
    if n >= 10 {
      NatToDecimalValue(n / 10);
      var r := NatToDecimal(n);
      assert r[..|r| - 1] == NatToDecimal(n / 10);
    }
  }

  /** `int(str(i)) == i`: rendering an integer and parsing it back is the identity. */
  lemma IntToDecimalRoundTrip(i: int)
    ensures ParseInt(IntToDecimal(i)) == Some(i)
  {
    var s := IntToDecimal(i);
    var d := NatToDecimal(if i < 0 then -i else i);
    NatToDecimalValue(if i < 0 then -i else i);
    assert NoSpace(s) by {
      forall k | 0 <= k < |s| ensures !IsSpace(s[k]) {
        if i < 0 && k > 0 {
          assert s[k] == d[k - 1];
        }
      }
    }
    StripNoSpace(s);
    if i < 0 {
      assert s[1..] == d;
    }
  }

  /** `n` copies of `x`. */
  function Repeat(x: string, n: nat): (r: seq<string>)
    ensures |r| == n && forall j :: 0 <= j < n ==> r[j] == x
  {
    if n == 0 then [] else Repeat(x, n - 1) + [x]
  }
}

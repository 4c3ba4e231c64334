/** String helpers shared by the whole model: the parts of Python's `str`
    that the seat-map code relies on (strip, upper, lower, str(int), int(str),
    startswith, the `in` substring test and sorting by code point). */
module Text {
  import opened Wrappers

  /** The characters for which Python's `str.isspace()` holds; `str.strip()`
      and the regular-expression class `\s` both use this set. */
  predicate IsSpace(c: char) {
    c == ' ' || ('\t' <= c <= '\r') || ('\U{1c}' <= c <= '\U{1f}')
    || c == '\U{85}' || c == '\U{a0}' || c == '\U{1680}'
    || ('\U{2000}' <= c <= '\U{200a}') || c == '\U{2028}' || c == '\U{2029}'
    || c == '\U{202f}' || c == '\U{205f}' || c == '\U{3000}'
  }

  predicate NoSpace(s: string) {
    forall i :: 0 <= i < |s| ==> !IsSpace(s[i])
  }

  function TrimLeft(s: string): (r: string)
    ensures |r| <= |s| && r == s[|s| - |r|..]
    ensures r == [] || !IsSpace(r[0])
  {
    if |s| > 0 && IsSpace(s[0]) then TrimLeft(s[1..]) else s
  }

  function TrimRight(s: string): (r: string)
    ensures |r| <= |s| && r == s[..|r|]
    ensures r == [] || !IsSpace(r[|r| - 1])
  {
    if |s| > 0 && IsSpace(s[|s| - 1]) then TrimRight(s[..|s| - 1]) else s
  }

  lemma {:induction false} TrimLeftDropsSpaces(s: string)
    ensures forall i :: 0 <= i < |s| - |TrimLeft(s)| ==> IsSpace(s[i])
  {
    if |s| > 0 && IsSpace(s[0]) {
      TrimLeftDropsSpaces(s[1..]);
      assert forall i :: 1 <= i < |s| ==> s[i] == s[1..][i - 1];
    }
  }

  lemma {:induction false} TrimRightDropsSpaces(s: string)
    ensures forall i :: |TrimRight(s)| <= i < |s| ==> IsSpace(s[i])
  {
    if |s| > 0 && IsSpace(s[|s| - 1]) {
      TrimRightDropsSpaces(s[..|s| - 1]);
    }
  }

  /** Where the stripped part of s starts. */
  function TrimStart(s: string): nat {
    |s| - |TrimLeft(s)|
  }

  /** Python's `s.strip()`: a slice of `s` that is empty or starts and ends
      with a non-space (TrimDropsSpaces: everything cut off is whitespace). */
  function Trim(s: string): (r: string)
    ensures TrimStart(s) + |r| <= |s|
    ensures r == s[TrimStart(s)..TrimStart(s) + |r|]
    ensures r == [] || (!IsSpace(r[0]) && !IsSpace(r[|r| - 1]))
  {
    var l := TrimLeft(s);
    var r := TrimRight(l);
    assert l == s[TrimStart(s)..];
    r
  }

  lemma TrimDropsSpaces(s: string)
    ensures forall i :: 0 <= i < TrimStart(s) ==> IsSpace(s[i])
    ensures forall i :: TrimStart(s) + |Trim(s)| <= i < |s| ==> IsSpace(s[i])
  {
    TrimLeftDropsSpaces(s);
    var l := TrimLeft(s);
    TrimRightDropsSpaces(l);
    assert forall i :: TrimStart(s) + |Trim(s)| <= i < |s| ==> s[i] == l[i - TrimStart(s)];
  }

  /** A string that already has no surrounding whitespace is left alone. */
  lemma TrimOfTrimmed(s: string)
    requires s == [] || (!IsSpace(s[0]) && !IsSpace(s[|s| - 1]))
    ensures Trim(s) == s
  {
  }

  lemma TrimIdempotent(s: string)
    ensures Trim(Trim(s)) == Trim(s)
  {
    TrimOfTrimmed(Trim(s));
  }

  /** Trimming empties a string exactly when it is all whitespace. */
  lemma TrimEmptyIffBlank(s: string)
    ensures Trim(s) == [] <==> forall i :: 0 <= i < |s| ==> IsSpace(s[i])
  {
    TrimDropsSpaces(s);
    if Trim(s) != [] {
      assert !IsSpace(s[TrimStart(s)]);
    }
  }

  // ---------------------------------------------------------------------
  // Case mapping. Only ASCII letters are mapped (see README, Left out).

  function UpperChar(c: char): char {
    if 'a' <= c <= 'z' then (c as int - 32) as char else c
  }

  function LowerChar(c: char): char {
    if 'A' <= c <= 'Z' then (c as int + 32) as char else c
  }

  /** Python's `s.upper()` restricted to ASCII letters. */
  function Upper(s: string): (r: string)
    ensures |r| == |s|
  {
    if s == [] then [] else [UpperChar(s[0])] + Upper(s[1..])
  }

  /** Python's `s.lower()` restricted to ASCII letters. */
  function Lower(s: string): (r: string)
    ensures |r| == |s|
  {
    if s == [] then [] else [LowerChar(s[0])] + Lower(s[1..])
  }

  lemma {:induction false} UpperAt(s: string, i: nat)
    requires i < |s|
    ensures Upper(s)[i] == UpperChar(s[i])
  {
    if i > 0 { UpperAt(s[1..], i - 1); }
  }

  lemma {:induction false} LowerAt(s: string, i: nat)
    requires i < |s|
    ensures Lower(s)[i] == LowerChar(s[i])
  {
    if i > 0 { LowerAt(s[1..], i - 1); }
  }

  /** Upper-casing maps no character to or from whitespace, so it commutes
      with strip(). */
  lemma {:induction false} UpperKeepsSpaces(s: string, i: nat)
    requires i < |s|
    ensures IsSpace(Upper(s)[i]) <==> IsSpace(s[i])
  {
    UpperAt(s, i);
  }

  lemma {:induction false} LowerKeepsSpaces(s: string, i: nat)
    requires i < |s|
    ensures IsSpace(Lower(s)[i]) <==> IsSpace(s[i])
  {
    LowerAt(s, i);
  }

  lemma {:induction false} UpperIdempotent(s: string)
    ensures Upper(Upper(s)) == Upper(s)
  {
    if s != [] {
      UpperIdempotent(s[1..]);
      assert Upper(s)[1..] == Upper(s[1..]);
    }
  }

  lemma {:induction false} LowerIdempotent(s: string)
    ensures Lower(Lower(s)) == Lower(s)
  {
    if s != [] {
      LowerIdempotent(s[1..]);
      assert Lower(s)[1..] == Lower(s[1..]);
    }
  }

  lemma {:induction false} LowerOfSlice(s: string, i: nat, j: nat)
    requires i <= j <= |s|
    ensures Lower(s[i..j]) == Lower(s)[i..j]
  {
    forall k | 0 <= k < j - i ensures Lower(s[i..j])[k] == Lower(s)[i..j][k] {
      LowerAt(s[i..j], k);
      LowerAt(s, i + k);
    }
  }

  lemma {:induction false} UpperOfSlice(s: string, i: nat, j: nat)
    requires i <= j <= |s|
    ensures Upper(s[i..j]) == Upper(s)[i..j]
  {
    forall k | 0 <= k < j - i ensures Upper(s[i..j])[k] == Upper(s)[i..j][k] {
      UpperAt(s[i..j], k);
      UpperAt(s, i + k);
    }
  }

  /** strip() and upper() can be applied in either order. */

  lemma {:induction false} TrimLeftUpper(s: string)
    ensures TrimLeft(Upper(s)) == Upper(TrimLeft(s))
  {
    if |s| > 0 {
      UpperKeepsSpaces(s, 0);
      if IsSpace(s[0]) {
        TrimLeftUpper(s[1..]);
      }
    }
  }

  lemma {:induction false} TrimRightUpper(s: string)
    ensures TrimRight(Upper(s)) == Upper(TrimRight(s))
  {
    if |s| > 0 {
      UpperKeepsSpaces(s, |s| - 1);
      if IsSpace(s[|s| - 1]) {
        UpperOfSlice(s, 0, |s| - 1);
        TrimRightUpper(s[..|s| - 1]);
      }
    }
  }

  lemma TrimUpperCommute(s: string)
    ensures Trim(Upper(s)) == Upper(Trim(s))
  {
    TrimLeftUpper(s);
    TrimRightUpper(TrimLeft(s));
  }

  /** strip() and lower() can be applied in either order. */

  lemma {:induction false} TrimLeftLower(s: string)
    ensures TrimLeft(Lower(s)) == Lower(TrimLeft(s))
  {
    if |s| > 0 {
      LowerKeepsSpaces(s, 0);
      if IsSpace(s[0]) {
        TrimLeftLower(s[1..]);
      }
    }
  }

  lemma {:induction false} TrimRightLower(s: string)
    ensures TrimRight(Lower(s)) == Lower(TrimRight(s))
  {
    if |s| > 0 {
      LowerKeepsSpaces(s, |s| - 1);
      if IsSpace(s[|s| - 1]) {
        LowerOfSlice(s, 0, |s| - 1);
        TrimRightLower(s[..|s| - 1]);
      }
    }
  }

  lemma TrimLowerCommute(s: string)
    ensures Trim(Lower(s)) == Lower(Trim(s))
  {
    TrimLeftLower(s);
    TrimRightLower(TrimLeft(s));
  }

  /** `str(s).strip().upper()`: the form in which seat codes are compared. */
  function TrimUpper(s: string): string {
    Upper(Trim(s))
  }

  /** A seat code already in normal form is left as it is. */
  lemma TrimUpperIdempotent(s: string)
    ensures TrimUpper(TrimUpper(s)) == TrimUpper(s)
  {
    TrimUpperCommute(Trim(s));
    TrimIdempotent(s);
    UpperIdempotent(Trim(s));
  }

  /** A code is blank after normalisation exactly when it was blank. */
  lemma TrimUpperBlank(s: string)
    ensures TrimUpper(s) == [] <==> Trim(s) == []
  {
  }

  // ---------------------------------------------------------------------
  // Decimal numbers.

  predicate IsDigit(c: char) {
    '0' <= c <= '9'
  }

  predicate AllDigits(s: string) {
    forall i :: 0 <= i < |s| ==> IsDigit(s[i])
  }

  function DigitChar(d: nat): (c: char)
    requires d < 10
    ensures IsDigit(c)
  {
    ('0' as int + d) as char
  }

  function DigitValue(c: char): (d: nat)
    requires IsDigit(c)
    ensures d < 10 && DigitChar(d) == c
  {
    c as int - '0' as int
  }

  /** Python's `str(n)` for a natural number: its decimal digits. */
  function NatToString(n: nat): (r: string)
    ensures |r| > 0 && AllDigits(r)
    decreases n
  {
    if n < 10 then [DigitChar(n)] else NatToString(n / 10) + [DigitChar(n % 10)]
  }

  /** Python's `str(i)` for any integer. */
  function IntToString(i: int): (r: string)
    ensures |r| > 0
    ensures i >= 0 ==> AllDigits(r)
  {
    if i < 0 then "-" + NatToString(-i) else NatToString(i)
  }

  lemma IntToStringSign(a: int)
    ensures IntToString(a)[0] == '-' <==> a < 0
  {
    if a >= 0 {
      assert IsDigit(IntToString(a)[0]);
    }
  }

  lemma IntToStringInjective(a: int, b: int)
    requires IntToString(a) == IntToString(b)
    ensures a == b
  {
    IntToStringSign(a);
    IntToStringSign(b);
    if a < 0 {
      assert IntToString(a)[1..] == NatToString(-a);
      assert IntToString(b)[1..] == NatToString(-b);
      NatToStringInjective(-a, -b);
    } else {
      NatToStringInjective(a, b);
    }
  }

  /** The value of a string of decimal digits. */
  function ParseDigits(s: string): nat
    requires AllDigits(s)
  {
    if s == [] then 0 else ParseDigits(s[..|s| - 1]) * 10 + DigitValue(s[|s| - 1])
  }

  /** Reading back the decimal digits of n gives n. */
  lemma {:induction false} ParseNatToString(n: nat)
    ensures ParseDigits(NatToString(n)) == n
    decreases n
  {
    var s := NatToString(n);
    if n >= 10 {
      ParseNatToString(n / 10);
      assert s[..|s| - 1] == NatToString(n / 10);
    }
  }

  lemma NatToStringInjective(m: nat, n: nat)
    requires NatToString(m) == NatToString(n)
    ensures m == n
  {
    ParseNatToString(m);
    ParseNatToString(n);
  }

  /** The longest prefix of s made of ASCII digits '0'..'9': the greedy
      regular-expression group `(\d+)` restricted to ASCII. */
  function LeadingDigits(s: string): (r: string)
    ensures AllDigits(r) && |r| <= |s| && r == s[..|r|]
    ensures |r| < |s| ==> !IsDigit(s[|r|])
  {
    if s != [] && IsDigit(s[0]) then [s[0]] + LeadingDigits(s[1..]) else []
  }

  /** Before a non-digit (or at the end), the leading digits of s + t are s. */
  lemma {:induction false} LeadingDigitsOfDigits(s: string, t: string)
    requires AllDigits(s)
    requires t == [] || !IsDigit(t[0])
    ensures LeadingDigits(s + t) == s
  {
    if s != [] {
      assert (s + t)[1..] == s[1..] + t;
      LeadingDigitsOfDigits(s[1..], t);
    } else {
      assert s + t == t;
    }
  }

  /** Python's `int(s)` on decimal input: surrounding whitespace and one sign
      are accepted; anything else that is not digits makes it fail. */
  function ParseInt(s: string): Option<int> {
    ParseSigned(Trim(s))
  }

  /** `int` on an already stripped string. */
  function ParseSigned(t: string): Option<int> {
    if |t| > 0 && (t[0] == '-' || t[0] == '+') then
      var d := t[1..];
      if |d| > 0 && AllDigits(d) then Some(if t[0] == '-' then -(ParseDigits(d) as int) else ParseDigits(d)) else None
    else if |t| > 0 && AllDigits(t) then Some(ParseDigits(t))
    else None
  }

  /** The decimal form of an integer has no surrounding whitespace. */
  lemma IntToStringTrimmed(k: int)
    ensures Trim(IntToString(k)) == IntToString(k)
  {
    var s := IntToString(k);
    var d := if k < 0 then NatToString(-k) else NatToString(k);
    assert IsDigit(d[|d| - 1]);
    assert s[|s| - 1] == d[|d| - 1];
    TrimOfTrimmed(s);
  }

  /** A string of digits is read as its value, and as minus its value after
      a minus sign. */
  lemma ParseSignedDigits(d: string)
    requires |d| > 0 && AllDigits(d)
    ensures ParseSigned(d) == Some(ParseDigits(d) as int)
    ensures ParseSigned("-" + d) == Some(-(ParseDigits(d) as int))
  {
    assert IsDigit(d[0]);
    assert ("-" + d)[1..] == d;
  }

  lemma ParseSignedOfIntToString(k: int)
    ensures ParseSigned(IntToString(k)) == Some(k)
  {
    if k >= 0 {
      ParseSignedDigits(NatToString(k));
      ParseNatToString(k);
    } else {
      ParseSignedDigits(NatToString(-k));
      ParseNatToString(-k);
    }
  }

  /** `int(str(k)) == k` for every integer k. */
  lemma ParseIntOfIntToString(k: int)
    ensures ParseInt(IntToString(k)) == Some(k)
  {
    IntToStringTrimmed(k);
    ParseSignedOfIntToString(k);
  }

  // ---------------------------------------------------------------------
  // Prefixes and substrings.

  predicate StartsWith(s: string, prefix: string) {
    |prefix| <= |s| && s[..|prefix|] == prefix
  }

  predicate OccursAt(hay: string, needle: string, i: int) {
    0 <= i && i + |needle| <= |hay| && hay[i..i + |needle|] == needle
  }

  /** Python's `needle in hay` for strings: some slice of hay is needle. */
  function Contains(hay: string, needle: string): (r: bool)
    ensures r <==> exists i :: OccursAt(hay, needle, i)
    decreases |hay|
  {
    if |needle| > |hay| then false
    else if hay[..|needle|] == needle then assert OccursAt(hay, needle, 0); true
    else
      var r := Contains(hay[1..], needle);
      assert forall i :: OccursAt(hay[1..], needle, i) <==> OccursAt(hay, needle, i + 1) by {
        forall i ensures OccursAt(hay[1..], needle, i) <==> OccursAt(hay, needle, i + 1) {
          if 0 <= i && i + |needle| <= |hay| - 1 {
            assert hay[1..][i..i + |needle|] == hay[i + 1..i + 1 + |needle|];
          }
        }
      }
      assert (exists i :: OccursAt(hay, needle, i)) ==> r by {
        if exists i :: OccursAt(hay, needle, i) {
          var i :| OccursAt(hay, needle, i);
          assert i != 0;
          assert OccursAt(hay[1..], needle, i - 1);
        }
      }
      r
  }

  // ---------------------------------------------------------------------
  // Python's ordering of strings: lexicographic by code point, a proper
  // prefix sorting first.

  predicate LexLe(a: string, b: string)
    decreases |a|
  {
    |a| == 0 || (|b| > 0 && (a[0] < b[0] || (a[0] == b[0] && LexLe(a[1..], b[1..]))))
  }

  lemma {:induction false} LexLeTotal(a: string, b: string)
    ensures LexLe(a, b) || LexLe(b, a)
    decreases |a|
  {
    if |a| > 0 && |b| > 0 && a[0] == b[0] { LexLeTotal(a[1..], b[1..]); }
  }

  lemma {:induction false} LexLeReflexive(a: string)
    ensures LexLe(a, a)
    decreases |a|
  {
    if |a| > 0 { LexLeReflexive(a[1..]); }
  }

  lemma {:induction false} LexLeAntisymmetric(a: string, b: string)
    requires LexLe(a, b) && LexLe(b, a)
    ensures a == b
    decreases |a|
  {
    if |a| > 0 {
      LexLeAntisymmetric(a[1..], b[1..]);
      assert a == [a[0]] + a[1..] && b == [b[0]] + b[1..];
    }
  }

  lemma {:induction false} LexLeTransitive(a: string, b: string, c: string)
    requires LexLe(a, b) && LexLe(b, c)
    ensures LexLe(a, c)
    decreases |a|
  {
    if |a| > 0 && a[0] == b[0] && b[0] == c[0] { LexLeTransitive(a[1..], b[1..], c[1..]); }
  }

  predicate IsLexMin(m: string, s: set<string>) {
    m in s && forall x :: x in s ==> LexLe(m, x)
  }

  /** Every finite non-empty set of strings has a least element. */
  lemma {:induction false} LexMinExists(s: set<string>)
    requires s != {}
    ensures exists m :: IsLexMin(m, s)
    decreases |s|
  {
    var y :| y in s;
    if s != {y} {
      var rest := s - {y};
      LexMinExists(rest);
      var m :| IsLexMin(m, rest);
      LexLeTotal(m, y);
      if LexLe(m, y) {
        assert IsLexMin(m, s);
      } else {
        forall x | x in s ensures LexLe(y, x) {
          if x == y { LexLeReflexive(y); } else { LexLeTransitive(y, m, x); }
        }
        assert IsLexMin(y, s);
      }
    } else {
      LexLeReflexive(y);
      assert IsLexMin(y, s);
    }
  }

  /** Strictly increasing in Python's string order (so also duplicate-free). */
  predicate StrictlySorted(r: seq<string>) {
    forall i, j :: 0 <= i < j < |r| ==> r[i] != r[j] && LexLe(r[i], r[j])
  }

  /** Python's `sorted(s)` for a set of strings. */
  method SortStrings(s: set<string>) returns (r: seq<string>)
    ensures StrictlySorted(r)
    ensures forall x :: x in r <==> x in s
  {
    r := [];
    var rest := s;
    while rest != {}
      invariant StrictlySorted(r)
      invariant forall x :: x in s <==> x in r || x in rest
      invariant forall i, y :: 0 <= i < |r| && y in rest ==> r[i] != y && LexLe(r[i], y)
      decreases rest
    {
      LexMinExists(rest);
      var m :| IsLexMin(m, rest);
      r := r + [m];
      rest := rest - {m};
    }
  }
}

/** The small part of Python's string behaviour the service relies on:
    stripping, splitting on a separator, changing case, substring
    and suffix tests, and decimal integers both ways. Everything is restricted to ASCII:
    non-ASCII whitespace, case mappings and digits are outside the model. */
module Text {
  import opened Results

  // ---------------------------------------------------------------------------
  // Whitespace and stripping
  // ---------------------------------------------------------------------------

  /** Whitespace, for one ASCII character: space, tab, line feed, vertical
      tab, form feed, carriage return and the separators 0x1C..0x1F. */
  predicate IsSpace(c: char) {
    var n := c as int;
    n == 32 || 9 <= n <= 13 || 28 <= n <= 31
  }

  /** A string with no whitespace at either end. */
  predicate IsStripped(s: string) {
    s == [] || (!IsSpace(s[0]) && !IsSpace(s[|s| - 1]))
  }

  predicate AllSpace(s: string) {
    forall i :: 0 <= i < |s| ==> IsSpace(s[i])
  }

  /** Left stripping: the suffix left after dropping leading whitespace. */
  function StripLeft(s: string): (r: string)
    ensures |r| <= |s| && r == s[|s| - |r|..]
    ensures r == [] || !IsSpace(r[0])
    ensures forall i :: 0 <= i < |s| - |r| ==> IsSpace(s[i])
  {
    if s == [] || !IsSpace(s[0]) then s
    else
      var r := StripLeft(s[1..]);
      assert s[1..][|s[1..]| - |r|..] == s[|s| - |r|..];
      r
  }

  /** Right stripping: the prefix left after dropping trailing whitespace. */
  function StripRight(s: string): (r: string)
    ensures |r| <= |s| && r == s[..|r|]
    ensures r == [] || !IsSpace(r[|r| - 1])
    ensures forall i :: |r| <= i < |s| ==> IsSpace(s[i])
  {
    if s == [] || !IsSpace(s[|s| - 1]) then s
    else
      var init := s[..|s| - 1];
      var r := StripRight(init);
      assert init[..|r|] == s[..|r|];
      r
  }

  /** Stripping left then right cuts `s` into whitespace, `r` and
      whitespace, with `r` neither starting nor ending in whitespace. */
  lemma StripCut(s: string, l: string, r: string)
    requires |l| <= |s| && l == s[|s| - |l|..] && AllSpace(s[..|s| - |l|])
    requires l == [] || !IsSpace(l[0])
    requires |r| <= |l| && r == l[..|r|] && AllSpace(l[|r|..])
    requires r == [] || !IsSpace(r[|r| - 1])
    ensures IsStripped(r)
    ensures r == [] <==> AllSpace(s)
    ensures exists i, j :: 0 <= i <= j <= |s| && r == s[i..j] && AllSpace(s[..i]) && AllSpace(s[j..])
  {
    var i := |s| - |l|;
    var j := i + |r|;
    assert r == s[i..j] by {
      assert s[i..][..|r|] == s[i..j];
    }
    assert AllSpace(s[j..]) by {
      forall k | 0 <= k < |s| - j
        ensures IsSpace(s[j..][k])
      {
        assert s[j..][k] == l[|r|..][k];
      }
    }
    if r == [] {
      assert l == [];
      assert s == s[..i];
    } else {
      assert !IsSpace(s[i]);
    }
  }

  /** Python's strip: the slice of `s` left once whitespace is removed from
      both ends. */
  function Strip(s: string): (r: string)
    ensures IsStripped(r)
    ensures |r| <= |s|
    ensures r == [] <==> AllSpace(s)
    ensures exists i, j :: 0 <= i <= j <= |s| && r == s[i..j] && AllSpace(s[..i]) && AllSpace(s[j..])
  {
    var l := StripLeft(s);
    var r := StripRight(l);
    var lead := s[..|s| - |l|];
    assert AllSpace(lead) by {
      forall k | 0 <= k < |lead|
        ensures IsSpace(lead[k])
      {
        assert lead[k] == s[k];
      }
    }
    var trail := l[|r|..];
    assert AllSpace(trail) by {
      forall k | 0 <= k < |trail|
        ensures IsSpace(trail[k])
      {
        assert trail[k] == l[|r| + k];
      }
    }
    StripCut(s, l, r);
    r
  }

  /** Stripping adds no character: what `s` lacks, its stripped form lacks. */
  lemma StripLacks(s: string, c: char)
    requires c !in s
    ensures c !in Strip(s)
  {
    var r := Strip(s);
    var i, j :| 0 <= i <= j <= |s| && r == s[i..j] && AllSpace(s[..i]) && AllSpace(s[j..]);
    forall k | 0 <= k < |r|
      ensures r[k] != c
    {
      assert r[k] == s[i + k];
    }
  }

  /** Stripping leaves an already stripped string as it is. */
  lemma StripStripped(s: string)
    requires IsStripped(s)
    ensures Strip(s) == s
  {
    assert StripLeft(s) == s;
    assert StripRight(s) == s;
  }

  // ---------------------------------------------------------------------------
  // Splitting on one separator character and joining back
  // ---------------------------------------------------------------------------

  /** Pieces glued back together with `sep` between consecutive ones
      (a separator join). */
  function Join(ps: seq<string>, sep: char): string
  {
    if |ps| == 0 then []
    else if |ps| == 1 then ps[0]
    else ps[0] + [sep] + Join(ps[1..], sep)
  }

  /** `s.split(sep)` for a one-character separator: the maximal pieces between
      separators. Like Python it always yields at least one piece, so
      `"".split(",") == [""]` and `"a,,b"` yields an empty middle piece. */
  function Split(s: string, sep: char): (r: seq<string>)
    ensures |r| >= 1
    ensures forall i :: 0 <= i < |r| ==> sep !in r[i]
    ensures Join(r, sep) == s
    decreases |s|
  {
    if s == [] then [[]]
    else
      var rest := Split(s[1..], sep);
      if s[0] == sep then
        assert s == [sep] + s[1..];
        [[]] + rest
      else
        var r := [[s[0]] + rest[0]] + rest[1..];
        assert r[1..] == rest[1..];
        assert s == [s[0]] + s[1..];
        r
  }

  /** Splitting a separator-free prefix followed by more text: the prefix is
      glued onto the first piece of the rest. */
  lemma {:induction false} SplitPrefix(p: string, t: string, sep: char)
    requires sep !in p
    ensures Split(p + t, sep) == [p + Split(t, sep)[0]] + Split(t, sep)[1..]
    decreases |p|
  {
    if p != [] {
      assert (p + t)[1..] == p[1..] + t;
      assert (p + t)[0] == p[0];
      SplitPrefix(p[1..], t, sep);
      assert [p[0]] + (p[1..] + Split(t, sep)[0]) == p + Split(t, sep)[0];
    } else {
      var st := Split(t, sep);
      assert p + t == t;
      assert st == [st[0]] + st[1..];
      assert p + st[0] == st[0];
    }
  }

  /** Split undoes Join whenever no piece contains the separator. */
  lemma {:induction false} SplitJoin(ps: seq<string>, sep: char)
    requires |ps| >= 1
    requires forall i :: 0 <= i < |ps| ==> sep !in ps[i]
    ensures Split(Join(ps, sep), sep) == ps
    decreases |ps|
  {
    if |ps| == 1 {
      SplitPrefix(ps[0], [], sep);
      assert ps[0] + [] == ps[0];
    } else {
      var t := [sep] + Join(ps[1..], sep);
      assert Join(ps, sep) == ps[0] + t;
      SplitPrefix(ps[0], t, sep);
      SplitJoin(ps[1..], sep);
      assert t[1..] == Join(ps[1..], sep);
      assert Split(t, sep) == [[]] + ps[1..];
      assert ps[0] + [] == ps[0];
      assert ps == [ps[0]] + ps[1..];
    }
  }

  // ---------------------------------------------------------------------------
  // Case mapping, substring and suffix tests
  // ---------------------------------------------------------------------------

  function UpperChar(c: char): char {
    if 'a' <= c <= 'z' then (c as int - 32) as char else c
  }

  function LowerChar(c: char): char {
    if 'A' <= c <= 'Z' then (c as int + 32) as char else c
  }

  /** Upper-casing ASCII text: lower-case letters become upper-case, all
      other characters stay. */
  function Upper(s: string): (r: string)
    ensures |r| == |s|
    ensures forall i :: 0 <= i < |s| ==> r[i] == UpperChar(s[i])
  {
    seq(|s|, i requires 0 <= i < |s| => UpperChar(s[i]))
  }

  /** Lower-casing ASCII text. */
  function Lower(s: string): (r: string)
    ensures |r| == |s|
    ensures forall i :: 0 <= i < |s| ==> r[i] == LowerChar(s[i])
  {
    seq(|s|, i requires 0 <= i < |s| => LowerChar(s[i]))
  }

  /** Lower-casing forgets any earlier upper-casing: a case-insensitive test
      gives the same answer on `s` and on its upper-cased form. */
  lemma LowerOfUpper(s: string)
    ensures Lower(Upper(s)) == Lower(s)
  {
    var a := Lower(Upper(s));
    var b := Lower(s);
    forall i | 0 <= i < |s|
      ensures a[i] == b[i]
    {
      assert LowerChar(UpperChar(s[i])) == LowerChar(s[i]);
    }
  }

  predicate StartsWith(s: string, prefix: string) {
    |prefix| <= |s| && s[..|prefix|] == prefix
  }

  predicate EndsWith(s: string, suffix: string) {
    |suffix| <= |s| && s[|s| - |suffix|..] == suffix
  }

  /** Substring containment: `needle` occurs somewhere in `s`. */
  predicate Contains(s: string, needle: string)
    decreases |s|
  {
    StartsWith(s, needle) || (|s| > 0 && Contains(s[1..], needle))
  }

  /** An occurrence at a known position is enough for Contains. */
  lemma {:induction false} ContainsAt(s: string, needle: string, i: nat)
    requires i <= |s| && StartsWith(s[i..], needle)
    ensures Contains(s, needle)
    decreases i
  {
    if i > 0 {
      assert s[1..][i - 1..] == s[i..];
      ContainsAt(s[1..], needle, i - 1);
    }
  }

  // ---------------------------------------------------------------------------
  // Decimal integers: parsing and printing
  // ---------------------------------------------------------------------------

  predicate IsDigit(c: char) {
    '0' <= c <= '9'
  }

  function DigitValue(c: char): nat
    requires IsDigit(c)
  {
    c as int - '0' as int
  }

  function DigitChar(d: nat): (c: char)
    requires d < 10
    ensures IsDigit(c) && DigitValue(c) == d
  {
    ('0' as int + d) as char
  }

  predicate DigitsOrUnderscores(b: string) {
    forall i :: 0 <= i < |b| ==> IsDigit(b[i]) || b[i] == '_'
  }

  /** The digit part accepted by integer parsing: ASCII digits, where a single
      underscore may separate two digits. Leading zeros are allowed. */
  predicate IsDigitBody(b: string) {
    && |b| > 0
    && IsDigit(b[0])
    && IsDigit(b[|b| - 1])
    && DigitsOrUnderscores(b)
    && (forall i :: 0 <= i < |b| - 1 ==> IsDigit(b[i]) || IsDigit(b[i + 1]))
  }

  /** The decimal value of a digit body; underscores carry no value. */
  function DigitsValue(b: string): nat
    requires DigitsOrUnderscores(b)
    decreases |b|
  {
    if b == [] then 0
    else
      var init := b[..|b| - 1];
      var c := b[|b| - 1];
      assert DigitsOrUnderscores(init) by {
        assert forall i :: 0 <= i < |init| ==> init[i] == b[i];
      }
      if c == '_' then DigitsValue(init) else DigitsValue(init) * 10 + DigitValue(c)
  }

  /** Whitespace as integer parsing skips it: space, tab, line feed,
      vertical tab, form feed and carriage return. The separators 0x1C..0x1F,
      which stripping removes, are not among them. */
  predicate IsIntSpace(c: char) {
    c == ' ' || '\t' <= c <= '\r'
  }

  /** One of the separators 0x1C..0x1F: whitespace to stripping, but not to
      integer parsing. */
  predicate IsSeparator(c: char) {
    IsSpace(c) && !IsIntSpace(c)
  }

  /** The suffix left after dropping leading integer whitespace. */
  function TrimIntLeft(s: string): (r: string)
    ensures |r| <= |s| && r == s[|s| - |r|..]
    ensures r == [] || !IsIntSpace(r[0])
    ensures forall i :: 0 <= i < |s| - |r| ==> IsIntSpace(s[i])
  {
    if s == [] || !IsIntSpace(s[0]) then s
    else
      var r := TrimIntLeft(s[1..]);
      assert s[1..][|s[1..]| - |r|..] == s[|s| - |r|..];
      r
  }

  /** The prefix left after dropping trailing integer whitespace. */
  function TrimIntRight(s: string): (r: string)
    ensures |r| <= |s| && r == s[..|r|]
    ensures r == [] || !IsIntSpace(r[|r| - 1])
    ensures forall i :: |r| <= i < |s| ==> IsIntSpace(s[i])
  {
    if s == [] || !IsIntSpace(s[|s| - 1]) then s
    else
      var init := s[..|s| - 1];
      var r := TrimIntRight(init);
      assert init[..|r|] == s[..|r|];
      r
  }

  /** The text between leading and trailing integer whitespace. A string
      that neither starts nor ends in it is kept whole; otherwise what is
      kept starts and ends where `s` first and last stops being integer
      whitespace. */
  function TrimInt(s: string): (r: string)
    ensures |s| > 0 && !IsIntSpace(s[0]) && !IsIntSpace(s[|s| - 1]) ==> r == s
    ensures AllSpace(s) && r != [] ==> IsSpace(r[0])
    ensures |s| > 0 && !IsIntSpace(s[0]) && r != [] ==> r[0] == s[0]
    ensures |s| > 0 && !IsIntSpace(s[|s| - 1]) && r != [] ==> r[|r| - 1] == s[|s| - 1]
  {
    var l := TrimIntLeft(s);
    var r := TrimIntRight(l);
    assert r != [] ==> r[0] == s[|s| - |l|];
    assert |s| > 0 && !IsIntSpace(s[0]) ==> l == s;
    assert |s| > 0 && !IsIntSpace(s[|s| - 1]) && r != [] ==> r[|r| - 1] == l[|l| - 1] == s[|s| - 1];
    r
  }

  /** An integer literal with no surrounding whitespace: an optional `+` or
      `-` sign, then a digit body. */
  function IntLiteral(t: string): (r: Option<int>)
    ensures r.Some? ==> t != [] && (t[0] == '+' || t[0] == '-' || IsDigit(t[0])) && IsDigit(t[|t| - 1])
  {
    if t == [] then None
    else if t[0] == '+' || t[0] == '-' then
      var body := t[1..];
      if IsDigitBody(body) then
        var v: int := DigitsValue(body);
        Some(if t[0] == '-' then -v else v)
      else None
    else if IsDigitBody(t) then Some(DigitsValue(t))
    else None
  }

  /** `int(s)` for ASCII input: surrounding integer whitespace is ignored,
      and the rest must be an integer literal; anything else is a
      ValueError, modelled as None. In particular a separator 0x1C..0x1F at
      either end is not skipped and makes the text unparsable. */
  function ParseInt(s: string): (r: Option<int>)
    ensures AllSpace(s) ==> r == None
    ensures |s| > 0 && IsSeparator(s[0]) ==> r == None
    ensures |s| > 0 && IsSeparator(s[|s| - 1]) ==> r == None
  {
    IntLiteral(TrimInt(s))
  }

  /** `str(n)` for a natural number. */
  function ShowNat(n: nat): (r: string)
    ensures IsDigitBody(r)
    ensures DigitsValue(r) == n
  {
    if n < 10 then [DigitChar(n)]
    else
      var init := ShowNat(n / 10);
      var r := init + [DigitChar(n % 10)];
      assert r[..|r| - 1] == init;
      r
  }

  /** `str(n)` for any integer. */
  function Show(n: int): string {
    if n < 0 then "-" + ShowNat(-n) else ShowNat(n)
  }

  /** Printing an integer and parsing the text gives the integer back. */
  lemma ParseShow(n: int)
    ensures ParseInt(Show(n)) == Some(n)
  {
    var s := Show(n);
    var d := ShowNat(if n < 0 then -n else n);
    assert IsDigit(d[0]) && IsDigit(d[|d| - 1]);
    if n < 0 {
      assert s == "-" + d;
      assert s[1..] == d;
      assert s[|s| - 1] == d[|d| - 1];
    } else {
      assert s == d;
    }
    assert !IsIntSpace(s[0]) && !IsIntSpace(s[|s| - 1]);
    assert TrimInt(s) == s;
    assert IntLiteral(s) == Some(n);
  }

  /** Integer parsing does not skip a separator the way stripping does:
      neither "\x1C7" nor "7\x1F" is an integer. */
  lemma SeparatorIsNoIntSpace()
    ensures ParseInt("\U{1C}7") == None
    ensures ParseInt("7\U{1F}") == None
  {
    var s := "\U{1C}7";
    assert IsSeparator(s[0]);
    var u := "7\U{1F}";
    assert IsSeparator(u[|u| - 1]);
  }
}

/** String helpers that the aggregation engine applies to raw CSV fields:
    the head segment of a split, Python's str.split as a reference, str.strip,
    and a decimal digit-string parser with its printer. */
module Text {

  datatype Option<T> = None | Some(value: T)

  /** The characters for which Python's str.isspace() holds. */
  const Whitespace: set<char> :=
    {'\t', '\n', '\U{0B}', '\U{0C}', '\r', '\U{1C}', '\U{1D}', '\U{1E}', '\U{1F}', ' ',
     '\U{85}', '\U{A0}', '\U{1680}', '\U{2000}', '\U{2001}', '\U{2002}', '\U{2003}',
     '\U{2004}', '\U{2005}', '\U{2006}', '\U{2007}', '\U{2008}', '\U{2009}', '\U{200A}',
     '\U{2028}', '\U{2029}', '\U{202F}', '\U{205F}', '\U{3000}'}

  predicate IsSpace(c: char)
  {
    c in Whitespace
  }

  /** Every character of `s` in positions `lo` to `hi - 1` is whitespace. */
  predicate SpaceBetween(s: string, lo: nat, hi: nat)
    requires lo <= hi <= |s|
  {
    forall j | lo <= j < hi :: IsSpace(s[j])
  }

  /** The text before the first occurrence of `c`, or all of `s` when `c`
      does not occur: both `s.split(c)[0]` and `s[:s.index(c)]`. */
  function PrefixBefore(s: string, c: char): (r: string)
    ensures |r| <= |s|
  {
    if s == [] || s[0] == c then [] else [s[0]] + PrefixBefore(s[1..], c)
  }

  /** The prefix is the longest one free of `c`: it is followed by `c`
      unless it is all of `s`. */
  lemma {:induction false} PrefixBeforeIsPrefix(s: string, c: char)
    ensures var r := PrefixBefore(s, c);
            && c !in r && r == s[..|r|]
            && (|r| < |s| ==> s[|r|] == c)
            && (c !in s ==> r == s)
  {
    if s != [] && s[0] != c {
      PrefixBeforeIsPrefix(s[1..], c);
      assert c in s ==> c in s[1..] by {
        if c in s {
          var j :| 0 <= j < |s| && s[j] == c;
          assert s[1..][j - 1] == c;
        }
      }
    }
  }

  /** Python's `s.split(c)`, written character by character: a reference
      definition that shares no code with PrefixBefore. */
  function Split(s: string, c: char): (parts: seq<string>)
    ensures |parts| >= 1
  {
    if s == [] then [[]]
    else
      var rest := Split(s[1..], c);
      if s[0] == c then [[]] + rest else [[s[0]] + rest[0]] + rest[1..]
  }

  lemma {:induction false} SplitHead(s: string, c: char)
    ensures Split(s, c)[0] == PrefixBefore(s, c)
  {
    if s != [] && s[0] != c {
      SplitHead(s[1..], c);
    }
  }

  /** There is a second segment exactly when the separator occurs. */
  lemma {:induction false} SplitHasSecond(s: string, c: char)
    ensures |Split(s, c)| >= 2 <==> c in s
  {
    if s != [] {
      SplitHasSecond(s[1..], c);
      assert s == [s[0]] + s[1..];
      assert c in s <==> s[0] == c || c in s[1..];
    }
  }

  /** The second segment is the head segment of what follows the first
      separator. */
  lemma {:induction false} SplitSecond(s: string, c: char)
    requires c in s
    ensures |Split(s, c)| >= 2 && |PrefixBefore(s, c)| < |s|
    ensures Split(s, c)[1] == PrefixBefore(s[|PrefixBefore(s, c)| + 1..], c)
  {
    SplitHasSecond(s, c);
    assert s == [s[0]] + s[1..];
    if s[0] == c {
      SplitHead(s[1..], c);
    } else {
      assert c in s[1..];
      SplitSecond(s[1..], c);
      var p := PrefixBefore(s[1..], c);
      assert PrefixBefore(s, c) == [s[0]] + p;
      assert s[|PrefixBefore(s, c)| + 1..] == s[1..][|p| + 1..];
    }
  }

  /** `s` without its leading whitespace: Python's `s.lstrip()`. */
  function DropLeading(s: string): (r: string)
    ensures |r| <= |s|
  {
    if s != [] && IsSpace(s[0]) then DropLeading(s[1..]) else s
  }

  /** `s` without its trailing whitespace: Python's `s.rstrip()`. */
  function DropTrailing(s: string): (r: string)
    ensures |r| <= |s|
  {
    if s != [] && IsSpace(s[|s| - 1]) then DropTrailing(s[..|s| - 1]) else s
  }

  /** Python's `s.strip()`. */
  function Trim(s: string): string
  {
    DropTrailing(DropLeading(s))
  }

  lemma {:induction false} DropLeadingIsSuffix(s: string)
    ensures var r := DropLeading(s);
            && r == s[|s| - |r|..] && SpaceBetween(s, 0, |s| - |r|)
            && (r != [] ==> !IsSpace(r[0]))
  {
    if s != [] && IsSpace(s[0]) {
      DropLeadingIsSuffix(s[1..]);
      var r := DropLeading(s);
      assert s[1..][|s| - 1 - |r|..] == s[|s| - |r|..];
      forall j | 0 <= j < |s| - |r|
        ensures IsSpace(s[j])
      {
        if j > 0 {
          assert s[j] == s[1..][j - 1];
        }
      }
    }
  }

  lemma {:induction false} DropTrailingIsPrefix(s: string)
    ensures var r := DropTrailing(s);
            && r == s[..|r|] && SpaceBetween(s, |r|, |s|)
            && (r != [] ==> !IsSpace(r[|r| - 1]))
  {
    if s != [] && IsSpace(s[|s| - 1]) {
      var p := s[..|s| - 1];
      DropTrailingIsPrefix(p);
      var r := DropTrailing(s);
      assert p[..|r|] == s[..|r|];
      forall j | |r| <= j < |s|
        ensures IsSpace(s[j])
      {
        if j < |s| - 1 {
          assert s[j] == p[j];
        }
      }
    }
  }

  /** The stripped text is `s` without whitespace on either side, and it
      neither starts nor ends with whitespace; only an all-whitespace string
      strips to nothing. */
  lemma TrimIsStrip(s: string)
    ensures var r := Trim(s);
            && (exists i :: 0 <= i <= |s| - |r| && r == s[i..i + |r|]
                            && SpaceBetween(s, 0, i) && SpaceBetween(s, i + |r|, |s|))
            && (r != [] ==> !IsSpace(r[0]) && !IsSpace(r[|r| - 1]))
            && (SpaceBetween(s, 0, |s|) <==> r == [])
  {
    var l := DropLeading(s);
    var r := Trim(s);
    DropLeadingIsSuffix(s);
    DropTrailingIsPrefix(l);
    var i := |s| - |l|;
    assert r == l[..|r|];
    assert r == s[i..i + |r|];
    assert SpaceBetween(s, i + |r|, |s|) by {
      forall j | i + |r| <= j < |s|
        ensures IsSpace(s[j])
      {
        assert s[j] == l[j - i];
      }
    }
    if r != [] {
      assert r[0] == l[0];
    }
    if l != [] {
      assert !SpaceBetween(s, 0, |s|) by {
        assert s[i] == l[0];
      }
    }
  }

  /** Text with no whitespace at either end strips to itself. */
  lemma TrimNoSpace(s: string)
    requires s != [] ==> !IsSpace(s[0]) && !IsSpace(s[|s| - 1])
    ensures Trim(s) == s
  {
  }

  predicate IsDigit(c: char)
  {
    '0' <= c <= '9'
  }

  predicate IsDigits(s: string)
  {
    forall i | 0 <= i < |s| :: IsDigit(s[i])
  }

  function DigitValue(c: char): nat
    requires IsDigit(c)
  {
    c as int - '0' as int
  }

  function DigitChar(d: nat): (c: char)
    requires d < 10
    ensures IsDigit(c) && DigitValue(c) == d
  {
    ('0' as int + d) as char
  }

  /** The value of a decimal digit string, most significant digit first. */
  function DigitsValue(s: string): nat
    requires IsDigits(s)
  {
    if s == [] then 0 else DigitsValue(s[..|s| - 1]) * 10 + DigitValue(s[|s| - 1])
  }

  /** `int(s)` restricted to plain non-empty digit strings; anything else is
      the ValueError case. */
  function ParseNat(s: string): Option<nat>
  {
    if s != [] && IsDigits(s) then Some(DigitsValue(s)) else None
  }

  /** `str(n)` for a non-negative integer. */
  function DigitText(n: nat): (r: string)
    ensures r != [] && IsDigits(r)
    ensures r[0] == '0' ==> r == "0"
    decreases n
  {
    if n < 10 then [DigitChar(n)] else DigitText(n / 10) + [DigitChar(n % 10)]
  }

  /** Printing a number and parsing it back gives the number. */
  lemma {:induction false} ParseDigitText(n: nat)
    ensures ParseNat(DigitText(n)) == Some(n)
    decreases n
  {
    if n >= 10 {
      ParseDigitText(n / 10);
      var s := DigitText(n / 10);
      var t := s + [DigitChar(n % 10)];
      assert t == DigitText(n);
      assert t[..|s|] == s;
      assert IsDigits(t) && DigitsValue(s) == n / 10;
      assert t[..|t| - 1] == s && t[|t| - 1] == DigitChar(n % 10);
      assert DigitsValue(t) == DigitsValue(s) * 10 + n % 10;
      assert DigitsValue(t) == n;
    } else {
      var t := DigitText(n);
      assert t == [DigitChar(n)];
      assert t[..|t| - 1] == [];
      assert DigitsValue(t) == DigitValue(t[0]);
    }
  }
}

/** String operations of the server code, as Python defines them on ASCII
    text: split on a separator, join, integer parsing and printing, upper
    case, prefix tests, blank tests, replacement and zero padding. */
module Text {
  import opened Wrappers

  /** How `str.format` prints an optional setting: None as "None". */
  function Shown(s: Option<string>): string
  {
    if s.Some? then s.value else "None"
  }

  predicate StartsWith(s: string, prefix: string)
  {
    |prefix| <= |s| && s[..|prefix|] == prefix
  }

  /** `sep.join(parts)`. */
  function Join(parts: seq<string>, sep: string): string
  {
    if parts == [] then ""
    else if |parts| == 1 then parts[0]
    else parts[0] + sep + Join(parts[1..], sep)
  }

  /** `s.split(sep)` for a one-character separator: always at least one
      part, empty parts kept. */
  function Split(s: string, sep: char): (r: seq<string>)
    ensures |r| >= 1
    decreases |s|
  {
    if s == [] then [""]
    else
      var rest := Split(s[1..], sep);
      if s[0] == sep then [""] + rest else [[s[0]] + rest[0]] + rest[1..]
  }

  lemma {:induction false} SplitNoSep(s: string, sep: char)
    requires sep !in s
    ensures Split(s, sep) == [s]
    decreases |s|
  {
    if s != [] {
      SplitNoSep(s[1..], sep);
      assert [s[0]] + s[1..] == s;
    }
  }

  lemma {:induction false} SplitAtSep(a: string, b: string, sep: char)
    requires sep !in a
    ensures Split(a + [sep] + b, sep) == [a] + Split(b, sep)
    decreases |a|
  {
    var s := a + [sep] + b;
    if a == [] {
      assert s[1..] == b;
    } else {
      assert s[1..] == a[1..] + [sep] + b;
      SplitAtSep(a[1..], b, sep);
      assert [a[0]] + a[1..] == a;
    }
  }

  /** No part of a split holds the separator. */
  lemma {:induction false} SplitPartsNoSep(s: string, sep: char)
    ensures forall i :: 0 <= i < |Split(s, sep)| ==> sep !in Split(s, sep)[i]
    decreases |s|
  {
    if s != [] {
      SplitPartsNoSep(s[1..], sep);
      var rest := Split(s[1..], sep);
      if s[0] != sep {
        assert forall i :: 1 <= i < |Split(s, sep)| ==> Split(s, sep)[i] == rest[i];
      } else {
        assert forall i :: 1 <= i < |Split(s, sep)| ==> Split(s, sep)[i] == rest[i - 1];
      }
    }
  }

  /** Every character of a part of a split comes from the string split. */
  lemma {:induction false} SplitPartsFrom(s: string, sep: char, c: char)
    requires c !in s
    ensures forall i :: 0 <= i < |Split(s, sep)| ==> c !in Split(s, sep)[i]
    decreases |s|
  {
    if s != [] {
      assert c !in s[1..] by {
        assert forall k :: 0 <= k < |s[1..]| ==> s[1..][k] == s[k + 1];
      }
      SplitPartsFrom(s[1..], sep, c);
      var rest := Split(s[1..], sep);
      if s[0] != sep {
        assert c !in [s[0]] + rest[0];
        assert forall i :: 1 <= i < |Split(s, sep)| ==> Split(s, sep)[i] == rest[i];
      } else {
        assert forall i :: 1 <= i < |Split(s, sep)| ==> Split(s, sep)[i] == rest[i - 1];
      }
    }
  }

  /** Splitting a join gives the parts back when no part holds the separator. */
  lemma {:induction false} SplitJoin(parts: seq<string>, sep: char)
    requires |parts| >= 1
    requires forall i :: 0 <= i < |parts| ==> sep !in parts[i]
    ensures Split(Join(parts, [sep]), sep) == parts
  {
    if |parts| == 1 {
      SplitNoSep(parts[0], sep);
    } else {
      SplitJoin(parts[1..], sep);
      SplitAtSep(parts[0], Join(parts[1..], [sep]), sep);
      assert [parts[0]] + parts[1..] == parts;
    }
  }

  predicate IsDigit(c: char)
  {
    '0' <= c <= '9'
  }

  function DigitValue(c: char): nat
    requires IsDigit(c)
  {
    (c as int) - ('0' as int)
  }

  function DigitChar(d: nat): (c: char)
    requires d < 10
    ensures IsDigit(c) && DigitValue(c) == d
  {
    ('0' as int + d) as char
  }

  /** The value of a string of decimal digits. */
  function DigitsValue(s: string): nat
    requires forall i :: 0 <= i < |s| ==> IsDigit(s[i])
  {
    if s == [] then 0 else DigitsValue(s[..|s| - 1]) * 10 + DigitValue(s[|s| - 1])
  }

  /** `str(n)` for a natural number. */
  function NatToString(n: nat): (s: string)
    ensures |s| >= 1 && forall i :: 0 <= i < |s| ==> IsDigit(s[i])
  {
    if n < 10 then [DigitChar(n)] else NatToString(n / 10) + [DigitChar(n % 10)]
  }

  lemma {:induction false} NatToStringValue(n: nat)
    ensures DigitsValue(NatToString(n)) == n
  {
    if n >= 10 {
      NatToStringValue(n / 10);
      var s := NatToString(n);
      assert s[..|s| - 1] == NatToString(n / 10);
    }
  }

  /** `str(n)` for an integer. */
  function IntToString(n: int): (s: string)
    ensures '.' !in s && ',' !in s && '/' !in s && |s| >= 1
  {
    if n < 0 then "-" + NatToString(-n) else NatToString(n)
  }

  function ParseNat(s: string): Option<nat>
  {
    if s != [] && forall i :: 0 <= i < |s| ==> IsDigit(s[i]) then Some(DigitsValue(s)) else None
  }

  /** `int(s)` restricted to an optional sign followed by decimal digits. */
  function ParseInt(s: string): Option<int>
  {
    var signed := s != [] && (s[0] == '-' || s[0] == '+');
    var digits := ParseNat(if signed then s[1..] else s);
    if digits.None? then None
    else if signed && s[0] == '-' then Some(-(digits.value as int))
    else Some(digits.value as int)
  }

  /** A non-empty string of digits parses to its value. */
  lemma DigitsParse(s: string)
    requires |s| > 0 && forall i :: 0 <= i < |s| ==> IsDigit(s[i])
    ensures ParseInt(s) == Some(DigitsValue(s) as int)
  {
    assert IsDigit(s[0]);
  }

  /** Printing an integer and parsing it back gives the integer. */
  lemma IntToStringParses(n: int)
    ensures ParseInt(IntToString(n)) == Some(n)
  {
    var d: nat := if n < 0 then -n else n;
    var s := NatToString(d);
    NatToStringValue(d);
    assert ParseNat(s) == Some(d);
    assert s[0] != '-' && s[0] != '+' by {
      assert IsDigit(s[0]);
    }
    if n < 0 {
      var t := "-" + s;
      assert t[1..] == s;
      assert IntToString(n) == t;
    } else {
      assert IntToString(n) == s;
    }
  }

  function UpperChar(c: char): char
  {
    if 'a' <= c <= 'z' then (c as int - 'a' as int + 'A' as int) as char else c
  }

  /** `s.upper()` on ASCII letters. */
  function Upper(s: string): (r: string)
    ensures |r| == |s| && forall i :: 0 <= i < |s| ==> r[i] == UpperChar(s[i])
  {
    if s == [] then [] else [UpperChar(s[0])] + Upper(s[1..])
  }

  lemma {:induction false} UpperIdempotent(s: string)
    ensures Upper(Upper(s)) == Upper(s)
  {
    var u := Upper(s);
    assert forall i :: 0 <= i < |s| ==> Upper(u)[i] == u[i];
  }

  /** The ASCII characters Python's `str.strip()` removes: space, tab, the
      line and form feeds, carriage return and the separators 0x1c to 0x1f. */
  predicate IsSpace(c: char)
  {
    c == ' ' || c == '\t' || c == '\n' || c == '\r' || c == '\U{000B}' || c == '\U{000C}' ||
    ('\U{001C}' <= c <= '\U{001F}')
  }

  /** `not s.strip()`: the string is empty or only whitespace. */
  predicate IsBlank(s: string)
  {
    forall i :: 0 <= i < |s| ==> IsSpace(s[i])
  }

  function TrimLeft(s: string): (r: string)
    ensures |r| <= |s| && r == s[|s| - |r|..]
    ensures r == [] <==> IsBlank(s)
    ensures r != [] ==> !IsSpace(r[0])
    decreases |s|
  {
    if s != [] && IsSpace(s[0]) then TrimLeft(s[1..]) else s
  }

  function TrimRight(s: string): (r: string)
    ensures |r| <= |s| && r == s[..|r|]
    ensures r == [] <==> IsBlank(s)
    ensures r != [] ==> !IsSpace(r[|r| - 1])
    decreases |s|
  {
    if s != [] && IsSpace(s[|s| - 1]) then TrimRight(s[..|s| - 1]) else s
  }

  /** `s.strip()`: whitespace removed at both ends; empty iff `s` is blank. */
  function Strip(s: string): (r: string)
    ensures r == [] <==> IsBlank(s)
    ensures r != [] ==> !IsSpace(r[0]) && !IsSpace(r[|r| - 1])
  {
    TrimRight(TrimLeft(s))
  }

  /** The whitespace `split()` with no separator splits on: for `bytes`
      only space, tab, the line and form feeds and carriage return; for
      `str` also the separators 0x1c to 0x1f. */
  predicate IsSeparator(c: char, bytes: bool)
  {
    if bytes then c == ' ' || c == '\t' || c == '\n' || c == '\r' || c == '\U{000B}' || c == '\U{000C}'
    else IsSpace(c)
  }

  /** A maximal run of non-whitespace: what `split()` returns. */
  predicate IsWord(w: string, bytes: bool)
  {
    w != [] && forall i :: 0 <= i < |w| ==> !IsSeparator(w[i], bytes)
  }

  /** `s.split()` with no separator, on `bytes` or on `str`: the maximal
      runs of non-whitespace. */
  function Words(s: string, bytes: bool): (r: seq<string>)
    ensures forall k :: 0 <= k < |r| ==> IsWord(r[k], bytes)
    ensures r == [] <==> forall i :: 0 <= i < |s| ==> IsSeparator(s[i], bytes)
    decreases |s|
  {
    if s == [] then []
    else if IsSeparator(s[0], bytes) then
      assert (forall i :: 0 <= i < |s| ==> IsSeparator(s[i], bytes)) <==>
             (forall i :: 0 <= i < |s[1..]| ==> IsSeparator(s[1..][i], bytes)) by {
        if forall i :: 0 <= i < |s[1..]| ==> IsSeparator(s[1..][i], bytes) {
          forall i | 0 <= i < |s| ensures IsSeparator(s[i], bytes) {
            if i > 0 { assert s[i] == s[1..][i - 1]; }
          }
        }
      }
      Words(s[1..], bytes)
    else
      var rest := Words(s[1..], bytes);
      if |s| > 1 && !IsSeparator(s[1], bytes) && rest != [] then
        assert IsWord(rest[0], bytes);
        [[s[0]] + rest[0]] + rest[1..]
      else [[s[0]]] + rest
  }

  /** A word alone splits into itself. */
  lemma {:induction false} WordsOfWord(w: string, bytes: bool)
    requires IsWord(w, bytes)
    ensures Words(w, bytes) == [w]
    decreases |w|
  {
    if |w| > 1 {
      assert IsWord(w[1..], bytes) by {
        assert forall i :: 0 <= i < |w[1..]| ==> w[1..][i] == w[i + 1];
      }
      WordsOfWord(w[1..], bytes);
      assert [w[0]] + w[1..] == w;
    } else {
      assert w[1..] == [] && w == [w[0]];
      assert Words(w[1..], bytes) == [];
    }
  }

  /** A word followed by a space is the first word of the split. */
  lemma {:induction false} WordsOfWordThenSpace(w: string, rest: string, bytes: bool)
    requires IsWord(w, bytes)
    ensures Words(w + " " + rest, bytes) == [w] + Words(rest, bytes)
    decreases |w|
  {
    var s := w + " " + rest;
    if |w| == 1 {
      assert s[1..] == " " + rest;
      assert (" " + rest)[1..] == rest;
      assert Words(" " + rest, bytes) == Words(rest, bytes);
      assert s[1] == ' ' && w == [w[0]];
    } else {
      assert IsWord(w[1..], bytes) by {
        assert forall i :: 0 <= i < |w[1..]| ==> w[1..][i] == w[i + 1];
      }
      assert s[1..] == w[1..] + " " + rest;
      WordsOfWordThenSpace(w[1..], rest, bytes);
      assert s[1] == w[1];
      assert [w[0]] + w[1..] == w;
    }
  }

  /** The separators 0x1c to 0x1f split a `str` but not `bytes`. */
  lemma UnitSeparatorSplitsStrOnly()
    ensures Words("a\U{001F}b", false) == ["a", "b"]
    ensures Words("a\U{001F}b", true) == ["a\U{001F}b"]
  {
    assert IsWord("b", false);
    WordsOfWord("b", false);
    assert "a\U{001F}b"[1..] == "\U{001F}b";
    assert "\U{001F}b"[1..] == "b";
    assert IsWord("a\U{001F}b", true);
    WordsOfWord("a\U{001F}b", true);
  }

  /** `s.replace(pat, rep)`: every non-overlapping occurrence, left to right. */
  function Replace(s: string, pat: string, rep: string): string
    requires |pat| > 0
    decreases |s|
  {
    if |s| < |pat| then s
    else if s[..|pat|] == pat then rep + Replace(s[|pat|..], pat, rep)
    else [s[0]] + Replace(s[1..], pat, rep)
  }

  predicate OccursAt(s: string, pat: string, i: nat)
  {
    i + |pat| <= |s| && s[i..i + |pat|] == pat
  }

  /** A string without the pattern is left unchanged by a replacement. */
  lemma {:induction false} ReplaceAbsent(s: string, pat: string, rep: string)
    requires |pat| > 0
    requires forall i: nat :: !OccursAt(s, pat, i)
    ensures Replace(s, pat, rep) == s
    decreases |s|
  {
    if |s| >= |pat| {
      assert !OccursAt(s, pat, 0);
      forall i: nat ensures !OccursAt(s[1..], pat, i) {
        assert !OccursAt(s, pat, i + 1);
        if i + |pat| <= |s[1..]| {
          assert s[1..][i..i + |pat|] == s[i + 1..i + 1 + |pat|];
        }
      }
      ReplaceAbsent(s[1..], pat, rep);
      assert [s[0]] + s[1..] == s;
    }
  }

  /** `s.replace(c, '')` removes every occurrence of the character `c` and
      leaves a string without it unchanged. */
  lemma {:induction false} ReplaceCharRemoves(s: string, c: char)
    ensures c !in Replace(s, [c], "")
    ensures c !in s ==> Replace(s, [c], "") == s
    decreases |s|
  {
    if |s| >= 1 {
      ReplaceCharRemoves(s[1..], c);
      if s[..1] != [c] {
        assert s[0] != c;
        assert [s[0]] + s[1..] == s;
      } else {
        assert s[0] == c;
      }
    }
  }

  /** A leading occurrence is replaced and the rest is processed after it. */
  lemma ReplaceLeading(pat: string, rest: string, rep: string)
    requires |pat| > 0
    ensures Replace(pat + rest, pat, rep) == rep + Replace(rest, pat, rep)
  {
    assert (pat + rest)[..|pat|] == pat;
    assert (pat + rest)[|pat|..] == rest;
  }

  /** `s.zfill(width)` for a string without a sign: zeros on the left up to `width`. */
  function ZFill(s: string, width: nat): (r: string)
    ensures |r| == if |s| < width then width else |s|
    ensures r[|r| - |s|..] == s
    ensures forall i :: 0 <= i < |r| - |s| ==> r[i] == '0'
  {
    if |s| < width then seq(width - |s|, _ => '0') + s else s
  }
}

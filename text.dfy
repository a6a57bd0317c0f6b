/** The handful of Python string operations the admin scripts rely on:
    `strip()`, `split(sep)`, `split()`, `lower()`, `count(pat)`,
    `replace(pat, "")` and `sep.join(xs)`, written over `seq<char>`. */
module Text {

  /** Python's `str.isspace` for one character (the set `strip()` and
      `split()` treat as whitespace). */
  predicate IsSpace(c: char) {
    || c == ' '
    || ('\t' <= c <= '\r')
    || ('\U{1C}' <= c <= '\U{1F}')
    || c == '\U{85}' || c == '\U{A0}' || c == '\U{1680}'
    || ('\U{2000}' <= c <= '\U{200A}')
    || c == '\U{2028}' || c == '\U{2029}' || c == '\U{202F}'
    || c == '\U{205F}' || c == '\U{3000}'
  }

  predicate AllSpace(s: string) {
    forall i :: 0 <= i < |s| ==> IsSpace(s[i])
  }

  predicate NoSpace(s: string) {
    forall i :: 0 <= i < |s| ==> !IsSpace(s[i])
  }

  // ---------------------------------------------------------------- strip

  /** `s.lstrip()`. */
  function StripLeft(s: string): string {
    if s != [] && IsSpace(s[0]) then StripLeft(s[1..]) else s
  }

  /** `s.rstrip()`. */
  function StripRight(s: string): string {
    if s != [] && IsSpace(s[|s| - 1]) then StripRight(s[..|s| - 1]) else s
  }

  /** `s.strip()`. */
  function Strip(s: string): string {
    StripRight(StripLeft(s))
  }

  /** What `lstrip()` drops is whitespace, and what it keeps is a suffix of
      `s` that does not start with whitespace. */
  lemma {:induction false} StripLeftShape(s: string)
    ensures var r := StripLeft(s);
      && |r| <= |s| && r == s[|s| - |r|..]
      && AllSpace(s[..|s| - |r|])
      && (r == [] || !IsSpace(r[0]))
  {
    if s != [] && IsSpace(s[0]) {
      StripLeftShape(s[1..]);
      var r := StripLeft(s[1..]);
      assert s[..|s| - |r|] == [s[0]] + s[1..][..|s| - 1 - |r|];
    }
  }

  /** What `rstrip()` keeps is a prefix of `s` that does not end with
      whitespace, the dropped tail being whitespace. */
  lemma {:induction false} StripRightShape(s: string)
    ensures var r := StripRight(s);
      && |r| <= |s| && r == s[..|r|]
      && AllSpace(s[|r|..])
      && (r == [] || !IsSpace(r[|r| - 1]))
  {
    if s != [] && IsSpace(s[|s| - 1]) {
      StripRightShape(s[..|s| - 1]);
      var r := StripRight(s[..|s| - 1]);
      assert s[|r|..] == s[..|s| - 1][|r|..] + [s[|s| - 1]];
    }
  }

  /** `s.strip()` removes whitespace from both ends only: the result is a
      contiguous slice of `s`, everything around it is whitespace, and it
      is empty exactly when `s` is blank. */
  lemma StripShape(s: string)
    ensures var l, r := StripLeft(s), Strip(s);
      && |l| <= |s| && |r| <= |l|
      && r == s[|s| - |l|..][..|r|]
      && AllSpace(s[..|s| - |l|])
      && AllSpace(s[|s| - |l|..][|r|..])
      && (r == [] || (!IsSpace(r[0]) && !IsSpace(r[|r| - 1])))
      && (r == [] <==> AllSpace(s))
  {
    var l := StripLeft(s);
    var r := StripRight(l);
    StripLeftShape(s);
    StripRightShape(l);
    var k := |s| - |l|;
    assert l == s[k..];
    if r == [] {
      assert l[|r|..] == l;
      AllSpaceJoin(s[..k], l);
      assert s == s[..k] + l;
    } else {
      assert r[0] == l[0] == s[k];
    }
  }

  lemma AllSpaceJoin(a: string, b: string)
    requires AllSpace(a) && AllSpace(b)
    ensures AllSpace(a + b)
  {
    forall i | 0 <= i < |a + b|
      ensures IsSpace((a + b)[i])
    {
      if i < |a| {
        assert (a + b)[i] == a[i];
      } else {
        assert (a + b)[i] == b[i - |a|];
      }
    }
  }

  // ---------------------------------------------------------------- lower

  function LowerChar(c: char): char {
    if 'A' <= c <= 'Z' then (c as int - 'A' as int + 'a' as int) as char else c
  }

  /** `s.lower()` on ASCII letters; every other character is unchanged. */
  function Lower(s: string): (r: string)
    ensures |r| == |s|
    ensures forall i :: 0 <= i < |s| ==> r[i] == LowerChar(s[i])
  {
    if s == [] then [] else [LowerChar(s[0])] + Lower(s[1..])
  }

  /** The `answer.lower() == "yes"` gate accepts exactly the eight
      spellings of "yes" in any mix of upper and lower case. */
  lemma {:induction false} LowerIsYes(s: string)
    ensures Lower(s) == "yes" <==>
      && |s| == 3
      && (s[0] == 'y' || s[0] == 'Y')
      && (s[1] == 'e' || s[1] == 'E')
      && (s[2] == 's' || s[2] == 'S')
  {
    var r := Lower(s);
    if |s| == 3 {
      if r == "yes" {
        assert r[0] == 'y' && r[1] == 'e' && r[2] == 's';
      } else {
        assert r[0] != 'y' || r[1] != 'e' || r[2] != 's';
      }
    }
  }

  // ---------------------------------------------------------- split(sep)

  function CountChar(s: string, c: char): (n: nat)
    ensures n <= |s|
  {
    if s == [] then 0 else (if s[0] == c then 1 else 0) + CountChar(s[1..], c)
  }

  /** `s.split(sep)` for a one-character separator: the pieces between
      consecutive separators (empty pieces included). */
  function Split(s: string, sep: char): (r: seq<string>)
    ensures |r| >= 1
    ensures forall i :: 0 <= i < |r| ==> sep !in r[i]
  {
    if s == [] then [""]
    else
      var rest := Split(s[1..], sep);
      if s[0] == sep then [""] + rest
      else [[s[0]] + rest[0]] + rest[1..]
  }

  /** `sep.join(xs)`. */
  function Join(sep: char, xs: seq<string>): string {
    if xs == [] then ""
    else if |xs| == 1 then xs[0]
    else xs[0] + [sep] + Join(sep, xs[1..])
  }

  /** There is one more piece than there are separators: this is why the
      line count of a command's output, minus one, is its number of line
      breaks. */
  lemma {:induction false} SplitLength(s: string, sep: char)
    ensures |Split(s, sep)| == CountChar(s, sep) + 1
  {
    if s != [] {
      SplitLength(s[1..], sep);
    }
  }

  /** Joining the pieces back with the separator restores the string. */
  lemma {:induction false} JoinSplit(s: string, sep: char)
    ensures Join(sep, Split(s, sep)) == s
  {
    if s != [] {
      var rest := Split(s[1..], sep);
      JoinSplit(s[1..], sep);
      if s[0] == sep {
        assert Split(s, sep) == [""] + rest;
        assert s == [sep] + s[1..];
      } else {
        var r := Split(s, sep);
        assert r == [[s[0]] + rest[0]] + rest[1..];
        if |rest| == 1 {
          assert s == [s[0]] + rest[0];
        } else {
          assert r[1..] == rest[1..];
          assert Join(sep, rest) == rest[0] + [sep] + Join(sep, rest[1..]);
        }
      }
    }
  }

  /** Splitting a join of separator-free words gives the words back. */
  lemma {:induction false} SplitJoin(xs: seq<string>, sep: char)
    requires xs != []
    requires forall i :: 0 <= i < |xs| ==> sep !in xs[i]
    ensures Split(Join(sep, xs), sep) == xs
  {
    if |xs| == 1 {
      SplitNoSep(xs[0], sep);
    } else {
      SplitJoin(xs[1..], sep);
      SplitAppend(xs[0], Join(sep, xs[1..]), sep);
      assert xs == [xs[0]] + xs[1..];
    }
  }

  /** A string holding the separator splits into at least two pieces, so
      the second piece can be read. */
  lemma {:induction false} SplitAtSep(s: string, sep: char)
    requires sep in s
    ensures |Split(s, sep)| >= 2
  {
    if s[0] != sep {
      assert s == [s[0]] + s[1..];
      SplitAtSep(s[1..], sep);
    }
  }

  lemma {:induction false} SplitNoSep(s: string, sep: char)
    requires sep !in s
    ensures Split(s, sep) == [s]
  {
    if s != [] {
      SplitNoSep(s[1..], sep);
      assert s == [s[0]] + s[1..];
    }
  }

  lemma {:induction false} SplitAppend(a: string, b: string, sep: char)
    requires sep !in a
    ensures Split(a + [sep] + b, sep) == [a] + Split(b, sep)
  {
    if a == [] {
      assert a + [sep] + b == [sep] + b;
      assert ([sep] + b)[1..] == b;
    } else {
      var s := a + [sep] + b;
      assert s[0] == a[0] && s[1..] == a[1..] + [sep] + b;
      SplitAppend(a[1..], b, sep);
      assert [a[0]] + a[1..] == a;
    }
  }

  // ------------------------------------------------------------- split()

  /** The longest prefix of `s` free of whitespace. */
  function TakeWord(s: string): (w: string)
    ensures |w| <= |s| && w == s[..|w|] && NoSpace(w)
    ensures |w| < |s| ==> IsSpace(s[|w|])
  {
    if s == [] || IsSpace(s[0]) then []
    else
      var w := TakeWord(s[1..]);
      assert [s[0]] + w == s[..1 + |w|];
      [s[0]] + w
  }

  /** `s.split()` with no argument: the maximal runs of non-whitespace. */
  function Words(s: string): (r: seq<string>)
    ensures forall i :: 0 <= i < |r| ==> r[i] != [] && NoSpace(r[i])
    decreases |s|
  {
    if s == [] then []
    else if IsSpace(s[0]) then Words(s[1..])
    else
      var w := TakeWord(s);
      [w] + Words(s[|w|..])
  }

  /** A line has at least one field exactly when it is not blank, which is
      why `parts[0]` is always there for a line that passed the
      `line.strip()` test. */
  lemma {:induction false} WordsEmptyIffBlank(s: string)
    ensures Words(s) == [] <==> AllSpace(s)
    decreases |s|
  {
    if s != [] && IsSpace(s[0]) {
      WordsEmptyIffBlank(s[1..]);
      assert forall i :: 1 <= i < |s| ==> s[i] == s[1..][i - 1];
    }
  }

  /** Consequence for the scripts' row filter: `line.strip()` is non-empty
      exactly when `line.split()` has a first field. */
  lemma StripNonEmptyIffWords(s: string)
    ensures Strip(s) != [] <==> Words(s) != []
  {
    StripShape(s);
    WordsEmptyIffBlank(s);
  }

  // ----------------------------------------------------------- count(pat)

  /** `s.count(pat)`: non-overlapping occurrences found left to right. */
  function Count(s: string, pat: string): nat
    requires pat != []
    decreases |s|
  {
    if |s| < |pat| then 0
    else if s[..|pat|] == pat then 1 + Count(s[|pat|..], pat)
    else Count(s[1..], pat)
  }

  /** Every counted occurrence uses up its own `|pat|` characters. */
  lemma {:induction false} CountBound(s: string, pat: string)
    requires pat != []
    ensures Count(s, pat) * |pat| <= |s|
    decreases |s|
  {
    if |s| >= |pat| {
      if s[..|pat|] == pat {
        CountBound(s[|pat|..], pat);
      } else {
        CountBound(s[1..], pat);
      }
    }
  }

  // ------------------------------------------------------ replace(pat, "")

  /** `s.replace(pat, "")`: every non-overlapping occurrence of `pat`,
      found left to right, is deleted. */
  function RemoveAll(s: string, pat: string): string
    requires pat != []
    decreases |s|
  {
    if |s| < |pat| then s
    else if s[..|pat|] == pat then RemoveAll(s[|pat|..], pat)
    else [s[0]] + RemoveAll(s[1..], pat)
  }

  /** Exactly the counted occurrences are deleted and nothing else. */
  lemma {:induction false} RemoveAllLength(s: string, pat: string)
    requires pat != []
    ensures |RemoveAll(s, pat)| == |s| - Count(s, pat) * |pat|
    decreases |s|
  {
    if |s| >= |pat| {
      if s[..|pat|] == pat {
        var rest := s[|pat|..];
        RemoveAllLength(rest, pat);
        assert Count(s, pat) == 1 + Count(rest, pat);
        SuccTimes(Count(rest, pat), |pat|);
      } else {
        RemoveAllLength(s[1..], pat);
        assert Count(s, pat) == Count(s[1..], pat);
      }
    }
  }

  /** One more occurrence removes `p` more characters. */
  lemma SuccTimes(k: nat, p: nat)
    ensures (1 + k) * p == p + k * p
  {
  }

  /** A string with no occurrence of `pat` is left as it is. */
  lemma {:induction false} RemoveAllAbsent(s: string, pat: string)
    requires pat != [] && Count(s, pat) == 0
    ensures RemoveAll(s, pat) == s
    decreases |s|
  {
    if |s| >= |pat| {
      RemoveAllAbsent(s[1..], pat);
      assert s == [s[0]] + s[1..];
    }
  }

  /** A leading occurrence is deleted and scanning resumes after it. */
  lemma RemoveAllLeading(pat: string, rest: string)
    requires pat != []
    ensures RemoveAll(pat + rest, pat) == RemoveAll(rest, pat)
  {
    assert (pat + rest)[..|pat|] == pat;
    assert (pat + rest)[|pat|..] == rest;
  }

  // -------------------------------------------------------------- numbers

  function DigitChar(d: nat): char
    requires d < 10
  {
    ('0' as int + d) as char
  }

  /** `str(n)` for a natural number: decimal digits, no leading zero. */
  function NatToString(n: nat): (r: string)
    ensures r != []
    ensures forall i :: 0 <= i < |r| ==> '0' <= r[i] <= '9'
    ensures |r| > 1 ==> r[0] != '0'
  {
    if n < 10 then [DigitChar(n)] else NatToString(n / 10) + [DigitChar(n % 10)]
  }
}

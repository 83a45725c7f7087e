/**
  * The Python `str` built-ins the core relies on (`strip`, `rstrip`, `lower`,
  * `split`, `' '.join`, `endswith`, `'-'.join`-style formatting of integers and
  * the `-+` collapse done with `re.sub`), written out on ASCII text.
  */
module PyStr {

  /** The ASCII characters Python's `str.isspace()` accepts; `strip()` and `split()` use them. */
  const Whitespace: set<char> :=
    {' ', '\t', '\n', '\r', '\U{000B}', '\U{000C}', '\U{001C}', '\U{001D}', '\U{001E}', '\U{001F}'}

  predicate IsSpace(c: char) { c in Whitespace }

  predicate IsUpper(c: char) { 'A' <= c <= 'Z' }

  predicate IsDigit(c: char) { '0' <= c <= '9' }

  /** Python's `\w` restricted to ASCII: letters, digits and `_`. */
  predicate IsWordChar(c: char) { 'a' <= c <= 'z' || IsUpper(c) || IsDigit(c) || c == '_' }

  /** `c.lower()` for an ASCII character. */
  function LowerChar(c: char): (r: char)
    ensures !IsUpper(r)
    ensures !IsUpper(c) ==> r == c
  {
    if IsUpper(c) then (c as int + 32) as char else c
  }

  /** `s.lower()`. */
  function Lower(s: string): (r: string)
    ensures |r| == |s|
    ensures forall i :: 0 <= i < |s| ==> r[i] == LowerChar(s[i])
  {
    seq(|s|, i requires 0 <= i < |s| => LowerChar(s[i]))
  }

  /** `s.endswith(t)`. */
  predicate EndsWith(s: string, t: string) {
    |t| <= |s| && s[|s| - |t|..] == t
  }

  // ---------------------------------------------------------------------------
  // strip / lstrip / rstrip over a set of characters
  // ---------------------------------------------------------------------------

  /** `s.lstrip(cs)`: drop the longest prefix made of characters in `cs`. */
  function LStrip(s: string, cs: set<char>): (r: string)
    ensures |r| <= |s| && r == s[|s| - |r|..]
    ensures r == [] || r[0] !in cs
    ensures forall i :: 0 <= i < |s| - |r| ==> s[i] in cs
  {
    if s != [] && s[0] in cs then
      var r := LStrip(s[1..], cs);
      assert forall i :: 1 <= i < |s| - |r| ==> s[i] == s[1..][i - 1];
      r
    else s
  }

  /** `s.rstrip(cs)`: drop the longest suffix made of characters in `cs`. */
  function RStrip(s: string, cs: set<char>): (r: string)
    ensures |r| <= |s| && r == s[..|r|]
    ensures r == [] || r[|r| - 1] !in cs
    ensures forall i :: |r| <= i < |s| ==> s[i] in cs
  {
    if s != [] && s[|s| - 1] in cs then
      var r := RStrip(s[..|s| - 1], cs);
      assert forall i :: |r| <= i < |s| - 1 ==> s[i] == s[..|s| - 1][i];
      r
    else s
  }

  /** `s.strip(cs)`; `s.strip()` is `Strip(s, Whitespace)`. */
  function Strip(s: string, cs: set<char>): (r: string)
    ensures r == [] || (r[0] !in cs && r[|r| - 1] !in cs)
  {
    RStrip(LStrip(s, cs), cs)
  }

  lemma {:induction false} LStripAppend(a: string, b: string, cs: set<char>)
    requires b != [] && b[0] !in cs
    ensures LStrip(a + b, cs) == LStrip(a, cs) + b
  {
    if a != [] {
      assert (a + b)[0] == a[0];
      assert (a + b)[1..] == a[1..] + b;
      if a[0] in cs {
        LStripAppend(a[1..], b, cs);
      }
    } else {
      assert a + b == b;
    }
  }

  lemma {:induction false} RStripKeeps(s: string, cs: set<char>)
    requires s == [] || s[|s| - 1] !in cs
    ensures RStrip(s, cs) == s
  {
  }

  /** Stripping a string that already has no stripped character at either end changes nothing. */
  lemma {:induction false} StripKeeps(s: string, cs: set<char>)
    requires s == [] || (s[0] !in cs && s[|s| - 1] !in cs)
    ensures Strip(s, cs) == s
  {
  }

  /** `Strip` keeps a piece of `s`, so a property of all characters of `s` holds of it. */
  lemma {:induction false} StripKeepsChars(s: string, cs: set<char>, p: char -> bool)
    requires forall i :: 0 <= i < |s| ==> p(s[i])
    ensures forall i :: 0 <= i < |Strip(s, cs)| ==> p(Strip(s, cs)[i])
  {
    var l := LStrip(s, cs);
    assert forall i :: 0 <= i < |l| ==> l[i] == s[|s| - |l| + i];
    var r := RStrip(l, cs);
    assert forall i :: 0 <= i < |r| ==> r[i] == l[i];
  }

  /** `Strip` keeps a piece of `s`, so it keeps `NoRun(s, c)`. */
  lemma {:induction false} StripKeepsNoRun(s: string, cs: set<char>, c: char)
    requires NoRun(s, c)
    ensures NoRun(Strip(s, cs), c)
  {
    var l := LStrip(s, cs);
    var r := RStrip(l, cs);
    assert l == s[|s| - |l|..];
    assert r == l[..|r|];
    forall i, j | 0 <= i < j < |r| && j == i + 1 ensures !(r[i] == c && r[j] == c) {
      assert r[i] == s[|s| - |l| + i];
      assert r[j] == s[|s| - |l| + j];
    }
    assert Strip(s, cs) == r;
  }

  // ---------------------------------------------------------------------------
  // Runs of one character: `re.sub(c + '+', c, s)`
  // ---------------------------------------------------------------------------

  /** No two adjacent occurrences of `c`. */
  ghost predicate NoRun(s: string, c: char) {
    forall i, j :: 0 <= i < j < |s| && j == i + 1 ==> !(s[i] == c && s[j] == c)
  }

  /** `re.sub('-+', '-', s)` for `c == '-'`: every run of `c` becomes a single `c`. */
  function CollapseRuns(s: string, c: char): (r: string)
    ensures NoRun(r, c)
    ensures |r| <= |s|
    ensures s != [] ==> r != [] && r[0] == s[0]
    ensures forall i :: 0 <= i < |r| ==> r[i] in s
  {
    if |s| <= 1 then s
    else if s[0] == c && s[1] == c then
      var r := CollapseRuns(s[1..], c);
      assert forall i :: 0 <= i < |r| ==> r[i] in s[1..] ==> r[i] in s;
      r
    else
      var t := CollapseRuns(s[1..], c);
      assert forall i :: 0 <= i < |t| ==> t[i] in s[1..] ==> t[i] in s;
      [s[0]] + t
  }

  // ---------------------------------------------------------------------------
  // `s.split()` and `' '.join(words)`
  // ---------------------------------------------------------------------------

  predicate NoSpace(s: string) {
    forall i :: 0 <= i < |s| ==> !IsSpace(s[i])
  }

  /** Length of the longest prefix of `s` without whitespace. */
  function WordLength(s: string): (n: nat)
    ensures n <= |s|
    ensures forall i :: 0 <= i < n ==> !IsSpace(s[i])
    ensures n < |s| ==> IsSpace(s[n])
  {
    if s == [] || IsSpace(s[0]) then 0 else 1 + WordLength(s[1..])
  }

  /** `s.split()`: the maximal runs of non-whitespace characters, left to right. */
  function Split(s: string): (ws: seq<string>)
    ensures forall k :: 0 <= k < |ws| ==> ws[k] != [] && NoSpace(ws[k])
    decreases |s|
  {
    if s == [] then []
    else if IsSpace(s[0]) then Split(s[1..])
    else
      var n := WordLength(s);
      [s[..n]] + Split(s[n..])
  }

  /** `' '.join(ws)`. */
  function JoinSpace(ws: seq<string>): string {
    if ws == [] then ""
    else if |ws| == 1 then ws[0]
    else ws[0] + " " + JoinSpace(ws[1..])
  }

  /**
    * The shape `' '.join(s.split())` produces: no whitespace at either end, no
    * whitespace other than `' '`, and never two whitespace characters in a row.
    */
  ghost predicate SingleSpaced(s: string) {
    && (s == [] || (!IsSpace(s[0]) && !IsSpace(s[|s| - 1])))
    && (forall i :: 0 <= i < |s| && IsSpace(s[i]) ==> s[i] == ' ')
    && (forall i, j :: 0 <= i < j < |s| && j == i + 1 ==> !(IsSpace(s[i]) && IsSpace(s[j])))
  }

  predicate NoUpper(s: string) {
    forall i :: 0 <= i < |s| ==> !IsUpper(s[i])
  }

  lemma {:induction false} JoinSpaceShape(ws: seq<string>)
    requires forall k :: 0 <= k < |ws| ==> ws[k] != [] && NoSpace(ws[k])
    ensures SingleSpaced(JoinSpace(ws))
    ensures ws != [] ==>
      && JoinSpace(ws) != []
      && JoinSpace(ws)[0] == ws[0][0]
      && JoinSpace(ws)[|JoinSpace(ws)| - 1] == ws[|ws| - 1][|ws[|ws| - 1]| - 1]
  {
    if |ws| > 1 {
      JoinSpaceShape(ws[1..]);
      var w, t := ws[0], JoinSpace(ws[1..]);
      var j := w + " " + t;
      assert JoinSpace(ws) == j;
      assert forall i :: 0 <= i < |w| ==> j[i] == w[i];
      assert j[|w|] == ' ';
      assert forall i :: |w| < i < |j| ==> j[i] == t[i - |w| - 1];
      assert !IsSpace(w[|w| - 1]);
      assert !IsSpace(t[0]);
    }
  }

  /** A property of characters that holds of `s` holds of every word of `s.split()`. */
  lemma {:induction false} SplitKeepsChars(s: string, p: char -> bool)
    requires forall i :: 0 <= i < |s| ==> p(s[i])
    ensures forall k, i :: 0 <= k < |Split(s)| && 0 <= i < |Split(s)[k]| ==> p(Split(s)[k][i])
    decreases |s|
  {
    if s == [] {
    } else if IsSpace(s[0]) {
      SplitKeepsChars(s[1..], p);
    } else {
      var n := WordLength(s);
      assert forall i :: 0 <= i < |s[n..]| ==> s[n..][i] == s[n + i];
      SplitKeepsChars(s[n..], p);
      var ws := Split(s);
      assert ws == [s[..n]] + Split(s[n..]);
      forall k, i | 0 <= k < |ws| && 0 <= i < |ws[k]| ensures p(ws[k][i]) {
        if k == 0 {
          assert ws[0][i] == s[i];
        } else {
          assert ws[k] == Split(s[n..])[k - 1];
        }
      }
    }
  }

  /** Every word of `s.split()` is a piece of `s`, so it keeps `NoRun(s, c)`. */
  lemma {:induction false} SplitKeepsNoRun(s: string, c: char)
    requires NoRun(s, c)
    ensures forall k :: 0 <= k < |Split(s)| ==> NoRun(Split(s)[k], c)
    decreases |s|
  {
    if s == [] {
    } else if IsSpace(s[0]) {
      assert forall i :: 0 <= i < |s[1..]| ==> s[1..][i] == s[i + 1];
      SplitKeepsNoRun(s[1..], c);
    } else {
      var n := WordLength(s);
      assert forall i :: 0 <= i < |s[n..]| ==> s[n..][i] == s[n + i];
      SplitKeepsNoRun(s[n..], c);
      var ws := Split(s);
      assert ws == [s[..n]] + Split(s[n..]);
      forall k | 0 <= k < |ws| ensures NoRun(ws[k], c) {
        if k > 0 {
          assert ws[k] == Split(s[n..])[k - 1];
        }
      }
    }
  }

  /** A property of characters that holds of every word and of `' '` holds of their join. */
  lemma {:induction false} JoinSpaceKeepsChars(ws: seq<string>, p: char -> bool)
    requires p(' ')
    requires forall k, i :: 0 <= k < |ws| && 0 <= i < |ws[k]| ==> p(ws[k][i])
    ensures forall i :: 0 <= i < |JoinSpace(ws)| ==> p(JoinSpace(ws)[i])
  {
    if |ws| > 1 {
      JoinSpaceKeepsChars(ws[1..], p);
      var w, t := ws[0], JoinSpace(ws[1..]);
      var j := w + " " + t;
      assert JoinSpace(ws) == j;
      forall i | 0 <= i < |j| ensures p(j[i]) {
        if i < |w| {
          assert j[i] == ws[0][i];
        } else if i > |w| {
          assert j[i] == t[i - |w| - 1];
        }
      }
    } else if |ws| == 1 {
      assert JoinSpace(ws) == ws[0];
      assert forall i :: 0 <= i < |ws[0]| ==> p(ws[0][i]);
    }
  }

  /** Joining with `' '` cannot create a run of a non-space character `c`. */
  lemma {:induction false} JoinSpaceKeepsNoRun(ws: seq<string>, c: char)
    requires c != ' '
    requires forall k :: 0 <= k < |ws| ==> NoRun(ws[k], c)
    ensures NoRun(JoinSpace(ws), c)
  {
    if |ws| > 1 {
      JoinSpaceKeepsNoRun(ws[1..], c);
      var w, t := ws[0], JoinSpace(ws[1..]);
      var j := w + " " + t;
      assert JoinSpace(ws) == j;
      forall i | 0 <= i < |j| - 1 ensures !(j[i] == c && j[i + 1] == c) {
        if i + 1 < |w| {
          assert j[i] == w[i] && j[i + 1] == w[i + 1];
        } else if i > |w| {
          assert j[i] == t[i - |w| - 1] && j[i + 1] == t[i - |w|];
        } else if i == |w| {
          assert j[i] == ' ';
        } else {
          assert j[i + 1] == ' ';
        }
      }
    } else if |ws| == 1 {
      assert JoinSpace(ws) == ws[0];
    }
  }

  // ---------------------------------------------------------------------------
  // Fixed points: text already in the target shape is left as it is
  // ---------------------------------------------------------------------------

  lemma {:induction false} LowerKeeps(s: string)
    requires NoUpper(s)
    ensures Lower(s) == s
  {
  }

  lemma {:induction false} CollapseRunsKeeps(s: string, c: char)
    requires NoRun(s, c)
    ensures CollapseRuns(s, c) == s
    decreases |s|
  {
    if |s| > 1 {
      assert !(s[0] == c && s[1] == c);
      assert forall i, j :: 0 <= i < j < |s[1..]| && j == i + 1 ==> s[1..][i] == s[i + 1] && s[1..][j] == s[j + 1];
      CollapseRunsKeeps(s[1..], c);
      assert [s[0]] + s[1..] == s;
    }
  }

  // ---------------------------------------------------------------------------
  // The characters other than `c`: what collapsing and stripping `c` never touch
  // ---------------------------------------------------------------------------

  /** The characters of `s` other than `c`, in order. */
  function Without(s: string, c: char): (r: string)
    ensures |r| <= |s|
    ensures forall i :: 0 <= i < |r| ==> r[i] != c
  {
    if s == [] then [] else (if s[0] == c then [] else [s[0]]) + Without(s[1..], c)
  }

  lemma {:induction false} WithoutAppend(a: string, b: string, c: char)
    ensures Without(a + b, c) == Without(a, c) + Without(b, c)
  {
    if a == [] {
      assert a + b == b;
    } else {
      assert (a + b)[0] == a[0];
      assert (a + b)[1..] == a[1..] + b;
      WithoutAppend(a[1..], b, c);
    }
  }

  /** Collapsing runs of `c` only removes copies of `c`. */
  lemma {:induction false} CollapseRunsWithout(s: string, c: char)
    ensures Without(CollapseRuns(s, c), c) == Without(s, c)
    decreases |s|
  {
    if |s| > 1 {
      CollapseRunsWithout(s[1..], c);
      if !(s[0] == c && s[1] == c) {
        var t := CollapseRuns(s[1..], c);
        assert ([s[0]] + t)[0] == s[0];
        assert ([s[0]] + t)[1..] == t;
      }
    }
  }

  /** Stripping `c` from both ends only removes copies of `c`. */
  lemma {:induction false} StripWithout(s: string, c: char)
    ensures Without(Strip(s, {c}), c) == Without(s, c)
  {
    LStripWithout(s, c);
    RStripWithout(LStrip(s, {c}), c);
  }

  lemma {:induction false} LStripWithout(s: string, c: char)
    ensures Without(LStrip(s, {c}), c) == Without(s, c)
  {
    if s != [] && s[0] == c {
      LStripWithout(s[1..], c);
    }
  }

  lemma {:induction false} RStripWithout(s: string, c: char)
    ensures Without(RStrip(s, {c}), c) == Without(s, c)
  {
    if s != [] && s[|s| - 1] == c {
      var init := s[..|s| - 1];
      RStripWithout(init, c);
      assert s == init + [c];
      WithoutAppend(init, [c], c);
      assert Without([c], c) == [];
    }
  }

  /** A suffix of single-spaced text that starts at a non-space is single-spaced. */
  lemma {:induction false} SingleSpacedDrop(s: string, m: nat)
    requires SingleSpaced(s) && m < |s| && !IsSpace(s[m])
    ensures SingleSpaced(s[m..])
  {
    var rest := s[m..];
    assert rest[0] == s[m] && rest[|rest| - 1] == s[|s| - 1];
    forall i | 0 <= i < |rest| && IsSpace(rest[i]) ensures rest[i] == ' ' {
      assert rest[i] == s[m + i];
    }
    forall i, j | 0 <= i < j < |rest| && j == i + 1 ensures !(IsSpace(rest[i]) && IsSpace(rest[j])) {
      assert rest[i] == s[m + i] && rest[j] == s[m + j];
    }
  }

  /** In single-spaced text, a word that does not end the text is followed by one `' '` and more single-spaced text. */
  lemma {:induction false} SingleSpacedRest(s: string, n: nat)
    requires SingleSpaced(s) && s != [] && n == WordLength(s) && n < |s|
    ensures n + 1 < |s| && s[n] == ' '
    ensures SingleSpaced(s[n + 1..])
    ensures Split(s[n..]) == Split(s[n + 1..])
    ensures Split(s[n + 1..]) != []
    ensures s == s[..n] + " " + s[n + 1..]
  {
    assert IsSpace(s[n]) && s[n] == ' ';
    assert n + 1 < |s|;
    assert !IsSpace(s[n + 1]);
    SingleSpacedDrop(s, n + 1);
    assert s[n..][1..] == s[n + 1..];
    var rest := s[n + 1..];
    SplitLeadingSpace(s[n..]);
    SplitStartsWithWord(rest);
    assert Split(rest) != [];
  }

  lemma {:induction false} SplitLeadingSpace(t: string)
    requires t != [] && IsSpace(t[0])
    ensures Split(t) == Split(t[1..])
  {
  }

  lemma {:induction false} SplitStartsWithWord(t: string)
    requires t != [] && !IsSpace(t[0])
    ensures Split(t) != []
  {
    assert Split(t) == [t[..WordLength(t)]] + Split(t[WordLength(t)..]);
  }

  /** `' '.join(s.split())` leaves a single-spaced string as it is. */
  lemma {:induction false} SplitJoinKeeps(s: string)
    requires SingleSpaced(s)
    ensures JoinSpace(Split(s)) == s
    decreases |s|
  {
    if s != [] {
      var n := WordLength(s);
      assert Split(s) == [s[..n]] + Split(s[n..]);
      if n == |s| {
        assert s[n..] == [];
        assert s[..n] == s;
      } else {
        SingleSpacedRest(s, n);
        var rest := s[n + 1..];
        SplitJoinKeeps(rest);
        assert JoinSpace(Split(s)) == s[..n] + " " + JoinSpace(Split(rest));
      }
    }
  }

  // ---------------------------------------------------------------------------
  // Splitting on one separator character
  // ---------------------------------------------------------------------------

  /** `s.split(c)[-1]`: the text after the last `c`, or all of `s` when there is none. */
  function LastPart(s: string, c: char): (r: string)
    ensures c !in r
    ensures |r| <= |s| && r == s[|s| - |r|..]
    ensures |r| < |s| ==> s[|s| - |r| - 1] == c
  {
    if s == [] then []
    else if s[|s| - 1] == c then []
    else
      var r := LastPart(s[..|s| - 1], c);
      assert s[..|s| - 1][|s| - 1 - |r|..] == s[|s| - 1 - |r|..|s| - 1];
      r + [s[|s| - 1]]
  }

  /** `s.split(c)[0]`: the text before the first `c`, or all of `s` when there is none. */
  function FirstPart(s: string, c: char): (r: string)
    ensures c !in r
    ensures |r| <= |s| && r == s[..|r|]
    ensures |r| < |s| ==> s[|r|] == c
  {
    if s == [] then []
    else if s[0] == c then []
    else [s[0]] + FirstPart(s[1..], c)
  }

  lemma {:induction false} LastPartAfter(a: string, c: char, x: string)
    requires c !in x
    ensures LastPart(a + [c] + x, c) == x
    decreases |x|
  {
    var s := a + [c] + x;
    if x == [] {
      assert s[|s| - 1] == c;
    } else {
      assert s[|s| - 1] == x[|x| - 1];
      assert s[..|s| - 1] == a + [c] + x[..|x| - 1];
      LastPartAfter(a, c, x[..|x| - 1]);
      assert x[..|x| - 1] + [x[|x| - 1]] == x;
    }
  }

  // ---------------------------------------------------------------------------
  // Decimal formatting of integers: f"{n}"
  // ---------------------------------------------------------------------------

  function DigitChar(d: nat): (c: char)
    requires d < 10
    ensures IsDigit(c)
  {
    ('0' as int + d) as char
  }

  /** f"{n}" for a non-negative integer. */
  function NatToString(n: nat): (r: string)
    ensures r != []
    ensures forall i :: 0 <= i < |r| ==> IsDigit(r[i])
    ensures n >= 10 ==> |r| >= 2
  {
    if n < 10 then [DigitChar(n)] else NatToString(n / 10) + [DigitChar(n % 10)]
  }

  /** Different numbers print differently. */
  lemma {:induction false} NatToStringInjective(n: nat, m: nat)
    requires NatToString(n) == NatToString(m)
    ensures n == m
  {
    var s, t := NatToString(n), NatToString(m);
    if n >= 10 && m >= 10 {
      assert s[|s| - 1] == DigitChar(n % 10) && t[|t| - 1] == DigitChar(m % 10);
      assert s[..|s| - 1] == NatToString(n / 10);
      assert t[..|t| - 1] == NatToString(m / 10);
      NatToStringInjective(n / 10, m / 10);
    } else if n < 10 && m < 10 {
      assert s[0] == DigitChar(n) && t[0] == DigitChar(m);
    }
  }

  /** f"{n}" for any integer (status codes are printed this way). */
  function IntToString(n: int): (r: string)
    ensures r != []
  {
    if n < 0 then "-" + NatToString(-n) else NatToString(n)
  }

  /** `t in s` for strings: `t` occurs in `s` as a contiguous piece. */
  predicate IsSubstring(t: string, s: string)
    decreases |s|
  {
    (|t| <= |s| && s[..|t|] == t) || (s != [] && IsSubstring(t, s[1..]))
  }
}

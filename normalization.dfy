/**
  * The model-name canonicaliser (`ModelNameNormalizer`) and the string helpers
  * beside it: `/v1` endpoint normalisation, provider-prefix extraction,
  * version-suffix removal and provider-name sanitising.
  *
  * Every regular expression the core uses is either a fixed-length pattern
  * anchored at the end of the string or a character class; the former are
  * written as a sequence of atoms (`Atom`) matched against the tail of the text.
  */
module Normalization {
  import opened PyStr
  import opened Options
  import opened Seqs

  // ---------------------------------------------------------------------------
  // End-anchored rewrite rules
  // ---------------------------------------------------------------------------

  /** One position of an end-anchored pattern: a literal character or `\d`. */
  datatype Atom = Lit(c: char) | Digit

  /** A rule `(pattern + '$', replacement)` of the normaliser's ordered rule list. */
  datatype Rule = Rule(pattern: seq<Atom>, replacement: string)

  /** Does `ch` match `a`? With `ignoreCase` (`re.IGNORECASE`) letters match in either case. */
  predicate AtomMatches(a: Atom, ch: char, ignoreCase: bool) {
    match a
    case Digit => IsDigit(ch)
    case Lit(c) => if ignoreCase then LowerChar(c) == LowerChar(ch) else c == ch
  }

  /** `re.search(pattern + '$', s)` for a fixed-length pattern: the last `|p|` characters match. */
  predicate SuffixMatches(s: string, p: seq<Atom>, ignoreCase: bool) {
    |p| <= |s| && forall i :: 0 <= i < |p| ==> AtomMatches(p[i], s[|s| - |p| + i], ignoreCase)
  }

  /**
    * `re.sub(pattern + '$', replacement, s, flags=...)`. An end-anchored pattern of fixed
    * length can match at one position only, so at most one replacement happens.
    */
  function ApplyRule(r: Rule, s: string, ignoreCase: bool): string {
    if SuffixMatches(s, r.pattern, ignoreCase) then s[..|s| - |r.pattern|] + r.replacement else s
  }

  /** `for pattern, replacement in rules: s = re.sub(...)`, in list order. */
  function ApplyRules(rules: seq<Rule>, s: string, ignoreCase: bool): string
    decreases |rules|
  {
    if rules == [] then s else ApplyRules(rules[1..], ApplyRule(rules[0], s, ignoreCase), ignoreCase)
  }

  /** Rules none of which matches leave the text unchanged. */
  lemma {:induction false} ApplyRulesUnmatched(rules: seq<Rule>, s: string, ignoreCase: bool)
    requires forall k :: 0 <= k < |rules| ==> !SuffixMatches(s, rules[k].pattern, ignoreCase)
    ensures ApplyRules(rules, s, ignoreCase) == s
    decreases |rules|
  {
    if rules != [] {
      assert !SuffixMatches(s, rules[0].pattern, ignoreCase);
      ApplyRulesUnmatched(rules[1..], s, ignoreCase);
    }
  }

  lemma {:induction false} ApplyRulesSplit(rules: seq<Rule>, k: nat, s: string, ignoreCase: bool)
    requires k <= |rules|
    ensures ApplyRules(rules, s, ignoreCase)
         == ApplyRules(rules[k..], ApplyRules(rules[..k], s, ignoreCase), ignoreCase)
    decreases k
  {
    if k > 0 {
      assert rules[1..][k - 1..] == rules[k..];
      assert rules[..k][1..] == rules[1..][..k - 1];
      ApplyRulesSplit(rules[1..], k - 1, ApplyRule(rules[0], s, ignoreCase), ignoreCase);
    } else {
      assert rules[..0] == [] && rules[0..] == rules;
    }
  }

  function Lits(s: string): (p: seq<Atom>)
    ensures |p| == |s| && forall i :: 0 <= i < |s| ==> p[i] == Lit(s[i])
  {
    seq(|s|, i requires 0 <= i < |s| => Lit(s[i]))
  }

  function Digits(n: nat): (p: seq<Atom>)
    ensures |p| == n && forall i :: 0 <= i < n ==> p[i] == Digit
  {
    seq(n, i => Digit)
  }

  /** `-\d{8}$`: a compact date suffix such as `-20240101`. */
  const DateCompact: Rule := Rule([Lit('-')] + Digits(8), "")
  /** `-\d{4}-\d{2}-\d{2}$`: an ISO date suffix such as `-2024-01-01`. */
  const DateIso: Rule := Rule([Lit('-')] + Digits(4) + [Lit('-')] + Digits(2) + [Lit('-')] + Digits(2), "")
  /** `-preview$`. */
  const PreviewSuffix: Rule := Rule(Lits("-preview"), "")
  /** `-latest$`. */
  const LatestSuffix: Rule := Rule(Lits("-latest"), "")
  /** `-\d{4}$`: a bare year suffix such as `-2024`. */
  const YearSuffix: Rule := Rule([Lit('-')] + Digits(4), "")

  /** `ModelNameNormalizer.DEFAULT_RULES`, in their order. */
  const DefaultRules: seq<Rule> := [DateCompact, DateIso, PreviewSuffix, LatestSuffix, YearSuffix]

  // ---------------------------------------------------------------------------
  // ModelNameNormalizer
  // ---------------------------------------------------------------------------

  /** A `ModelNameNormalizer`: its only state is the rule list fixed at construction. */
  datatype Normalizer = Normalizer(rules: seq<Rule>)

  /** `ModelNameNormalizer(custom_rules)`: `self.rules = custom_rules or DEFAULT_RULES`. */
  function NewNormalizer(custom: Option<seq<Rule>>): (n: Normalizer)
    ensures custom == None || custom == Some([]) ==> n.rules == DefaultRules
    ensures custom.Some? && custom.value != [] ==> n.rules == custom.value
    ensures n.rules != []
  {
    match custom
    case Some(rs) => if rs != [] then Normalizer(rs) else Normalizer(DefaultRules)
    case None => Normalizer(DefaultRules)
  }

  /** Steps 1-2 of `normalize`: keep only the text after the last `/`. */
  function DropNamespace(s: string): string {
    if '/' in s then LastPart(s, '/') else s
  }

  /** The last steps of `normalize`: lowercase, collapse `-` runs, strip `-`, collapse whitespace. */
  function Tidy(s: string): string {
    var lowered := Lower(s);
    var collapsed := CollapseRuns(lowered, '-');
    var trimmed := Strip(collapsed, {'-'});
    JoinSpace(Split(trimmed))
  }

  /** `ModelNameNormalizer.normalize(model_name)`. */
  function Normalize(n: Normalizer, name: string): string {
    if name == "" then ""
    else Tidy(ApplyRules(n.rules, DropNamespace(Strip(name, Whitespace)), true))
  }

  /** `ModelNameNormalizer.batch_normalize(model_names)`: `{name: normalize(name)}`. */
  function BatchNormalize(n: Normalizer, names: seq<string>): (m: map<string, string>)
    ensures m.Keys == set x | x in names
    ensures forall x :: x in m ==> m[x] == Normalize(n, x)
  {
    map x | x in names :: Normalize(n, x)
  }

  /** The module-level `normalize_model_name(name)`: a normaliser with the default rules. */
  function NormalizeModelName(name: string): string {
    Normalize(NewNormalizer(None), name)
  }

  /** Whatever the rules do, the result is lowercase, has no `--` and is single-spaced. */
  lemma {:induction false} NormalizeShape(n: Normalizer, name: string)
    ensures NoUpper(Normalize(n, name))
    ensures NoRun(Normalize(n, name), '-')
    ensures SingleSpaced(Normalize(n, name))
  {
    if name != "" {
      TidyShape(ApplyRules(n.rules, DropNamespace(Strip(name, Whitespace)), true));
    }
  }

  lemma {:induction false} TidyShape(s: string)
    ensures NoUpper(Tidy(s)) && NoRun(Tidy(s), '-') && SingleSpaced(Tidy(s))
  {
    var lowered := Lower(s);
    var collapsed := CollapseRuns(lowered, '-');
    var trimmed := Strip(collapsed, {'-'});
    var notUpper := (c: char) => !IsUpper(c);
    assert forall i :: 0 <= i < |collapsed| ==> collapsed[i] in lowered;
    assert forall i :: 0 <= i < |collapsed| ==> notUpper(collapsed[i]);
    StripKeepsChars(collapsed, {'-'}, notUpper);
    StripKeepsNoRun(collapsed, {'-'}, '-');
    var words := Split(trimmed);
    SplitKeepsChars(trimmed, notUpper);
    SplitKeepsNoRun(trimmed, '-');
    JoinSpaceShape(words);
    JoinSpaceKeepsChars(words, notUpper);
    JoinSpaceKeepsNoRun(words, '-');
  }

  /**
    * Only the text after the last `/` counts: a namespace prefix in front of a
    * name without `/` or surrounding whitespace does not change the result.
    * (For an empty name the rules must not match the empty string, as the
    * default ones do not.)
    */
  lemma {:induction false} NormalizeIgnoresNamespace(n: Normalizer, prefix: string, x: string)
    requires '/' !in x
    requires x == [] || (!IsSpace(x[0]) && !IsSpace(x[|x| - 1]))
    requires x != [] || forall k :: 0 <= k < |n.rules| ==> n.rules[k].pattern != []
    ensures Normalize(n, prefix + "/" + x) == Normalize(n, x)
  {
    DropNamespaceAfterStrip(prefix, x);
    if x == [] {
      NoRuleMatchesEmpty(n.rules);
      assert Tidy("") == "";
    } else {
      StripKeeps(x, Whitespace);
    }
  }

  /** After a namespace, the name's own leading whitespace is kept and reaches the rules. */
  lemma {:induction false} NormalizeAfterNamespace(n: Normalizer, namespace: string, x: string)
    requires '/' !in x && x != [] && !IsSpace(x[|x| - 1])
    ensures Normalize(n, namespace + "/" + x) == Tidy(ApplyRules(n.rules, x, true))
  {
    DropNamespaceAfterStrip(namespace, x);
  }

  lemma {:induction false} DropNamespaceAfterStrip(prefix: string, x: string)
    requires '/' !in x
    requires x == [] || !IsSpace(x[|x| - 1])
    ensures DropNamespace(Strip(prefix + "/" + x, Whitespace)) == x
  {
    StripAroundSlash(prefix, x);
    DropNamespaceOf(LStrip(prefix, Whitespace), x);
  }

  lemma {:induction false} StripAroundSlash(prefix: string, x: string)
    requires x == [] || !IsSpace(x[|x| - 1])
    ensures Strip(prefix + "/" + x, Whitespace) == LStrip(prefix, Whitespace) + "/" + x
  {
    var tail := "/" + x;
    assert tail[0] !in Whitespace && tail[|tail| - 1] !in Whitespace;
    StripAppend(prefix, tail, Whitespace);
    ConcatAssoc(prefix, "/", x);
    ConcatAssoc(LStrip(prefix, Whitespace), "/", x);
  }

  lemma {:induction false} StripAppend(a: string, b: string, cs: set<char>)
    requires b != [] && b[0] !in cs && b[|b| - 1] !in cs
    ensures Strip(a + b, cs) == LStrip(a, cs) + b
  {
    LStripAppend(a, b, cs);
    var left := LStrip(a, cs) + b;
    assert left[|left| - 1] == b[|b| - 1];
    RStripKeeps(left, cs);
  }

  lemma {:induction false} DropNamespaceOf(p: string, x: string)
    requires '/' !in x
    ensures DropNamespace(p + "/" + x) == x
  {
    var s := p + "/" + x;
    assert s[|p|] == '/';
    LastPartAfter(p, '/', x);
  }

  lemma {:induction false} NoRuleMatchesEmpty(rules: seq<Rule>)
    requires forall k :: 0 <= k < |rules| ==> rules[k].pattern != []
    ensures ApplyRules(rules, "", true) == ""
    decreases |rules|
  {
    if rules != [] {
      assert ApplyRule(rules[0], "", true) == "";
      NoRuleMatchesEmpty(rules[1..]);
    }
  }

  /** The shape `Tidy` aims at: lowercase, no `--`, no `-` at either end, single-spaced. */
  ghost predicate Tidied(s: string) {
    && NoUpper(s) && NoRun(s, '-') && SingleSpaced(s)
    && (s == [] || (s[0] != '-' && s[|s| - 1] != '-'))
  }

  /** A name already in that shape passes the last steps of `normalize` unchanged. */
  lemma {:induction false} TidyKeeps(s: string)
    requires Tidied(s)
    ensures Tidy(s) == s
  {
    LowerKeeps(s);
    CollapseRunsKeeps(s, '-');
    StripKeeps(s, {'-'});
    SplitJoinKeeps(s);
  }

  /** A tidy name without surrounding whitespace or `/` that no rule rewrites is its own normal form. */
  lemma {:induction false} NormalizeKeeps(n: Normalizer, x: string)
    requires Tidied(x) && '/' !in x
    requires ApplyRules(n.rules, x, true) == x
    ensures Normalize(n, x) == x
  {
    if x != [] {
      StripKeeps(x, Whitespace);
      TidyKeeps(x);
    }
  }

  /** For a name without `/` or surrounding whitespace, `normalize` is the rules followed by `Tidy`. */
  lemma {:induction false} NormalizeNoNamespace(n: Normalizer, x: string, y: string)
    requires x != [] && '/' !in x && !IsSpace(x[0]) && !IsSpace(x[|x| - 1])
    requires ApplyRules(n.rules, x, true) == y && Tidied(y)
    ensures Normalize(n, x) == y
  {
    StripKeeps(x, Whitespace);
    TidyKeeps(y);
  }

  /** Lowercase letters, digits and `-`. */
  predicate IsPlain(c: char) { 'a' <= c <= 'z' || IsDigit(c) || c == '-' }

  lemma {:induction false} PlainTidied(s: string)
    requires forall i :: 0 <= i < |s| ==> IsPlain(s[i])
    requires NoRun(s, '-') && (s == [] || (s[0] != '-' && s[|s| - 1] != '-'))
    ensures Tidied(s)
  {
    assert forall i :: 0 <= i < |s| ==> !IsSpace(s[i]);
  }

  // ---------------------------------------------------------------------------
  // Helpers
  // ---------------------------------------------------------------------------

  /** `url.rstrip('/')`, then `/v1` appended unless already there. */
  function EnsureV1(url: string): (r: string)
    ensures EndsWith(r, "/v1")
    ensures var u := RStrip(url, {'/'});
      (EndsWith(u, "/v1") ==> r == u) && (!EndsWith(u, "/v1") ==> r == u + "/v1")
  {
    var u := RStrip(url, {'/'});
    if EndsWith(u, "/v1") then u
    else
      assert (u + "/v1")[|u|..] == "/v1";
      u + "/v1"
  }

  /** `normalize_url(url)`. */
  function NormalizeUrl(url: string): (r: string)
    ensures url == "" <==> r == ""
    ensures url != "" ==> EndsWith(r, "/v1")
    ensures url != "" ==> r == EnsureV1(url)
  {
    if url == "" then "" else EnsureV1(url)
  }

  /** A normalised endpoint is left as it is: `normalize_url` is idempotent. */
  lemma {:induction false} NormalizeUrlIdempotent(url: string)
    ensures NormalizeUrl(NormalizeUrl(url)) == NormalizeUrl(url)
  {
    if url != "" {
      var r := NormalizeUrl(url);
      assert r[|r| - 1] == '1';
      RStripKeeps(r, {'/'});
    }
  }

  /** `extract_provider_from_model(name)`: the text before the first `/`, if there is a `/`. */
  function ExtractProvider(name: string): (r: Option<string>)
    ensures r == None <==> '/' !in name
    ensures r.Some? ==> '/' !in r.value
    ensures r.Some? ==> |r.value| < |name| && name[..|r.value|] == r.value && name[|r.value|] == '/'
  {
    if name == "" || '/' !in name then None
    else
      var first := FirstPart(name, '/');
      if |first| == |name| then
        assert '/' !in name[..|first|];
        None
      else Some(first)
  }

  /** `remove_version_suffix(name)`: the two date rules, then the year rule, case-sensitively. */
  function RemoveVersionSuffix(name: string): string {
    if name == "" then ""
    else ApplyRule(YearSuffix, ApplyRule(DateIso, ApplyRule(DateCompact, name, false), false), false)
  }

  /** A rule that replaces its match by nothing keeps a prefix and drops characters its atoms matched. */
  lemma {:induction false} DeletingRuleKeepsPrefix(r: Rule, s: string, ic: bool)
    requires r.replacement == ""
    requires forall k :: 0 <= k < |r.pattern| ==> r.pattern[k] == Digit || r.pattern[k] == Lit('-')
    ensures |ApplyRule(r, s, ic)| <= |s| && ApplyRule(r, s, ic) == s[..|ApplyRule(r, s, ic)|]
    ensures forall i :: |ApplyRule(r, s, ic)| <= i < |s| ==> s[i] == '-' || IsDigit(s[i])
  {
    if SuffixMatches(s, r.pattern, ic) {
      var t := ApplyRule(r, s, ic);
      assert t == s[..|s| - |r.pattern|];
      forall i | |t| <= i < |s| ensures s[i] == '-' || IsDigit(s[i]) {
        var k := i - (|s| - |r.pattern|);
        assert AtomMatches(r.pattern[k], s[i], ic);
      }
    }
  }

  /** `remove_version_suffix` only cuts a tail made of `-` and digits off the name. */
  lemma {:induction false} RemoveVersionSuffixShape(name: string)
    ensures |RemoveVersionSuffix(name)| <= |name|
    ensures RemoveVersionSuffix(name) == name[..|RemoveVersionSuffix(name)|]
    ensures forall i :: |RemoveVersionSuffix(name)| <= i < |name| ==> name[i] == '-' || IsDigit(name[i])
  {
    if name != "" {
      var a := ApplyRule(DateCompact, name, false);
      DeletingRuleKeepsPrefix(DateCompact, name, false);
      var b := ApplyRule(DateIso, a, false);
      DeletingRuleKeepsPrefix(DateIso, a, false);
      var c := ApplyRule(YearSuffix, b, false);
      DeletingRuleKeepsPrefix(YearSuffix, b, false);
      forall i | |c| <= i < |name| ensures name[i] == '-' || IsDigit(name[i]) {
        if i < |a| {
          assert name[i] == a[i];
          if i < |b| { assert a[i] == b[i]; }
        }
      }
    }
  }

  /**
    * `remove_version_suffix` changes a name exactly when one of its three suffixes
    * matches, and then removes at least that suffix.
    */
  lemma {:induction false} RemoveVersionSuffixRemoves(name: string)
    ensures RemoveVersionSuffix(name) == name <==>
      && !SuffixMatches(name, DateCompact.pattern, false)
      && !SuffixMatches(name, DateIso.pattern, false)
      && !SuffixMatches(name, YearSuffix.pattern, false)
    ensures SuffixMatches(name, DateCompact.pattern, false) ==> |RemoveVersionSuffix(name)| <= |name| - 9
    ensures SuffixMatches(name, DateIso.pattern, false) ==> |RemoveVersionSuffix(name)| <= |name| - 11
    ensures SuffixMatches(name, YearSuffix.pattern, false) ==> |RemoveVersionSuffix(name)| <= |name| - 5
  {
    var dc, di, dy := DateCompact.pattern, DateIso.pattern, YearSuffix.pattern;
    assert |dc| == 9 && |di| == 11 && |dy| == 5;
    assert dc[4] == Digit && dc[6] == Digit;
    assert di[6] == Digit && di[8] == Lit('-');
    assert dy[0] == Lit('-');
    if name != "" {
      var a := ApplyRule(DateCompact, name, false);
      DeletingRuleKeepsPrefix(DateCompact, name, false);
      var b := ApplyRule(DateIso, a, false);
      DeletingRuleKeepsPrefix(DateIso, a, false);
      DeletingRuleKeepsPrefix(YearSuffix, b, false);
      if SuffixMatches(name, di, false) {
        assert AtomMatches(di[8], name[|name| - 3], false);
        assert !AtomMatches(dc[6], name[|name| - 3], false);
        assert a == name;
      }
      if SuffixMatches(name, dy, false) {
        assert AtomMatches(dy[0], name[|name| - 5], false);
        assert !AtomMatches(dc[4], name[|name| - 5], false);
        assert !AtomMatches(di[6], name[|name| - 5], false);
        assert a == name && b == name;
      }
    }
  }

  /** `re.sub(r'[^\w\-]', '-', s)`: every character other than a word character or `-` becomes `-`. */
  function ReplaceNonWord(s: string): (r: string)
    ensures |r| == |s|
    ensures forall i :: 0 <= i < |s| ==> r[i] == (if IsWordChar(s[i]) || s[i] == '-' then s[i] else '-')
  {
    seq(|s|, i requires 0 <= i < |s| => if IsWordChar(s[i]) || s[i] == '-' then s[i] else '-')
  }

  predicate IsIdChar(c: char) { (IsWordChar(c) && !IsUpper(c)) || c == '-' }

  /** After lowering and replacing, only lowercase word characters and `-` are left. */
  lemma {:induction false} ReplacedAreIdChars(name: string)
    ensures forall c :: c in ReplaceNonWord(Lower(name)) ==> IsIdChar(c)
  {
    var lowered := Lower(name);
    var replaced := ReplaceNonWord(lowered);
    forall c | c in replaced ensures IsIdChar(c) {
      var i :| 0 <= i < |replaced| && replaced[i] == c;
      assert lowered[i] == LowerChar(name[i]);
    }
  }

  /** Stripping the collapsed, replaced, lowered text leaves only id characters and no `--`. */
  lemma {:induction false} SanitizedShape(name: string)
    ensures var r := Strip(CollapseRuns(ReplaceNonWord(Lower(name)), '-'), {'-'});
      (forall i :: 0 <= i < |r| ==> IsIdChar(r[i])) && NoRun(r, '-')
  {
    var replaced := ReplaceNonWord(Lower(name));
    var collapsed := CollapseRuns(replaced, '-');
    ReplacedAreIdChars(name);
    forall i | 0 <= i < |collapsed| ensures IsIdChar(collapsed[i]) {
      assert collapsed[i] in replaced;
    }
    StripKeepsChars(collapsed, {'-'}, IsIdChar);
    StripKeepsNoRun(collapsed, {'-'}, '-');
  }

  /** The word characters of `s`, in order. */
  function WordChars(s: string): (r: string)
    ensures forall i :: 0 <= i < |r| ==> IsWordChar(r[i])
  {
    if s == [] then [] else (if IsWordChar(s[0]) then [s[0]] else []) + WordChars(s[1..])
  }

  /** Replacing turns every non-word character into `-` and keeps the word characters. */
  lemma {:induction false} ReplaceNonWordWithout(s: string)
    ensures Without(ReplaceNonWord(s), '-') == WordChars(s)
  {
    if s != [] {
      ReplaceNonWordWithout(s[1..]);
      assert ReplaceNonWord(s)[1..] == ReplaceNonWord(s[1..]);
    }
  }

  /**
    * `sanitize_provider_name` keeps the letters, digits and `_` of the lowercased
    * name, in order: everything else it drops or turns into `-`.
    */
  lemma {:induction false} SanitizeKeepsWordChars(name: string)
    ensures Without(SanitizeProviderName(name), '-') == WordChars(Lower(name))
  {
    if name != "" {
      var replaced := ReplaceNonWord(Lower(name));
      ReplaceNonWordWithout(Lower(name));
      CollapseRunsWithout(replaced, '-');
      StripWithout(CollapseRuns(replaced, '-'), '-');
    }
  }

  /** A name that already is an id (id characters, no `--`, no edge `-`) is left as it is. */
  lemma {:induction false} SanitizeKeepsIds(name: string)
    requires forall i :: 0 <= i < |name| ==> IsIdChar(name[i])
    requires NoRun(name, '-') && (name == [] || (name[0] != '-' && name[|name| - 1] != '-'))
    ensures SanitizeProviderName(name) == name
  {
    if name != "" {
      LowerKeeps(name);
      assert ReplaceNonWord(name) == name;
      CollapseRunsKeeps(name, '-');
      StripKeeps(name, {'-'});
    }
  }

  /** `sanitize_provider_name(name)`. */
  function SanitizeProviderName(name: string): (r: string)
    ensures forall i :: 0 <= i < |r| ==> IsIdChar(r[i])
    ensures NoRun(r, '-')
    ensures r == [] || (r[0] != '-' && r[|r| - 1] != '-')
  {
    if name == "" then ""
    else
      var lowered := Lower(name);
      var replaced := ReplaceNonWord(lowered);
      var collapsed := CollapseRuns(replaced, '-');
      SanitizedShape(name);
      Strip(collapsed, {'-'})
  }
}

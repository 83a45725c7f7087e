/**
  * Worked examples of the model-name canonicaliser with its default rules,
  * including the inputs on which it is not idempotent and does not trim `-`.
  */
module NormalizationExamples {
  import opened PyStr
  import opened Options
  import opened Seqs
  import opened Normalization

  lemma {:induction false} GptFourTidied()
    ensures Tidied("gpt-4")
  {
    PlainTidied("gpt-4");
  }

  lemma {:induction false} GptFourUnmatched()
    ensures ApplyRules(DefaultRules[1..], "gpt-4", true) == "gpt-4"
    ensures ApplyRules(DefaultRules[2..], "gpt-4", true) == "gpt-4"
  {
    var y := "gpt-4";
    assert !AtomMatches(YearSuffix.pattern[0], y[0], true);
    ApplyRulesUnmatched(DefaultRules[1..], y, true);
    ApplyRulesUnmatched(DefaultRules[2..], y, true);
  }

  /** Lowercase letters, digits and `-` only. */
  ghost predicate AllPlain(s: string) {
    forall i :: 0 <= i < |s| ==> IsPlain(s[i])
  }

  /** For a name of lowercase letters, digits and `-`, `normalize_model_name` is the default rules followed by `Tidy`. */
  lemma {:induction false} PlainNormalize(x: string, y: string)
    requires x != [] && AllPlain(x)
    requires ApplyRules(DefaultRules, x, true) == y && Tidied(y)
    ensures NormalizeModelName(x) == y
  {
    assert forall i :: 0 <= i < |x| ==> x[i] != '/' && !IsSpace(x[i]);
    assert NewNormalizer(None).rules == DefaultRules;
    NormalizeNoNamespace(NewNormalizer(None), x, y);
  }

  lemma {:induction false} ExampleNamesPlain()
    ensures AllPlain("gpt-4-20240101") && AllPlain("gpt-4-2024-01-01")
    ensures AllPlain("gpt-4-2024-2024") && AllPlain("gpt-4-2024")
  {
  }

  lemma {:induction false} CompactDateRules()
    ensures ApplyRules(DefaultRules, "gpt-4-20240101", true) == "gpt-4"
  {
    var x := "gpt-4-20240101";
    assert SuffixMatches(x, DateCompact.pattern, true);
    assert ApplyRule(DateCompact, x, true) == "gpt-4";
    GptFourUnmatched();
    assert ApplyRules(DefaultRules, x, true) == ApplyRules(DefaultRules[1..], "gpt-4", true);
  }

  /** `gpt-4-20240101` loses its compact date suffix. */
  lemma {:induction false} CompactDateExample()
    ensures NormalizeModelName("gpt-4-20240101") == "gpt-4"
  {
    CompactDateRules();
    ExampleNamesPlain();
    GptFourTidied();
    PlainNormalize("gpt-4-20240101", "gpt-4");
  }

  lemma {:induction false} IsoDateRules()
    ensures ApplyRules(DefaultRules, "gpt-4-2024-01-01", true) == "gpt-4"
  {
    var x := "gpt-4-2024-01-01";
    assert !AtomMatches(DateCompact.pattern[0], x[7], true);
    assert ApplyRule(DateCompact, x, true) == x;
    assert SuffixMatches(x, DateIso.pattern, true);
    assert ApplyRule(DateIso, x, true) == "gpt-4";
    GptFourUnmatched();
    assert ApplyRules(DefaultRules, x, true) == ApplyRules(DefaultRules[1..], x, true);
    assert ApplyRules(DefaultRules[1..], x, true) == ApplyRules(DefaultRules[2..], "gpt-4", true);
  }

  /** `gpt-4-2024-01-01` loses its ISO date suffix. */
  lemma {:induction false} IsoDateExample()
    ensures NormalizeModelName("gpt-4-2024-01-01") == "gpt-4"
  {
    IsoDateRules();
    ExampleNamesPlain();
    GptFourTidied();
    PlainNormalize("gpt-4-2024-01-01", "gpt-4");
  }

  lemma {:induction false} TwoYearsRules()
    ensures ApplyRules(DefaultRules, "gpt-4-2024-2024", true) == "gpt-4-2024"
  {
    var x, y := "gpt-4-2024-2024", "gpt-4-2024";
    assert !AtomMatches(DateCompact.pattern[0], x[6], true);
    assert !AtomMatches(DateIso.pattern[0], x[4], true);
    assert !AtomMatches(PreviewSuffix.pattern[0], x[7], true);
    assert !AtomMatches(LatestSuffix.pattern[0], x[8], true);
    ApplyRulesUnmatched(DefaultRules[..4], x, true);
    assert SuffixMatches(x, YearSuffix.pattern, true);
    assert ApplyRule(YearSuffix, x, true) == y;
    assert ApplyRules(DefaultRules[4..], x, true) == y;
    ApplyRulesSplit(DefaultRules, 4, x, true);
  }

  lemma {:induction false} OneYearRules()
    ensures ApplyRules(DefaultRules, "gpt-4-2024", true) == "gpt-4"
  {
    var y := "gpt-4-2024";
    assert !AtomMatches(DateCompact.pattern[0], y[1], true);
    assert !AtomMatches(PreviewSuffix.pattern[0], y[2], true);
    assert !AtomMatches(LatestSuffix.pattern[1], y[4], true);
    ApplyRulesUnmatched(DefaultRules[..4], y, true);
    assert SuffixMatches(y, YearSuffix.pattern, true);
    assert ApplyRule(YearSuffix, y, true) == "gpt-4";
    assert ApplyRules(DefaultRules[4..], y, true) == "gpt-4";
    ApplyRulesSplit(DefaultRules, 4, y, true);
  }

  lemma {:induction false} OneYearTidied()
    ensures Tidied("gpt-4-2024")
  {
    PlainTidied("gpt-4-2024");
  }

  lemma {:induction false} TwoYearsNormalize()
    ensures NormalizeModelName("gpt-4-2024-2024") == "gpt-4-2024"
  {
    TwoYearsRules();
    OneYearTidied();
    ExampleNamesPlain();
    PlainNormalize("gpt-4-2024-2024", "gpt-4-2024");
  }

  lemma {:induction false} OneYearNormalize()
    ensures NormalizeModelName("gpt-4-2024") == "gpt-4"
  {
    OneYearRules();
    GptFourTidied();
    ExampleNamesPlain();
    PlainNormalize("gpt-4-2024", "gpt-4");
  }

  /**
    * `normalize` is not idempotent: the year rule runs once per call, so a name
    * ending in two year-like groups loses one of them per call.
    */
  lemma {:induction false} NormalizeNotIdempotent()
    ensures exists x :: NormalizeModelName(NormalizeModelName(x)) != NormalizeModelName(x)
  {
    TwoYearsNormalize();
    OneYearNormalize();
    NotFixedPoint("gpt-4-2024-2024", "gpt-4-2024", "gpt-4");
  }

  /** A name whose second normalisation differs from its first witnesses non-idempotence. */
  lemma {:induction false} NotFixedPoint(x: string, y: string, z: string)
    requires NormalizeModelName(x) == y && NormalizeModelName(y) == z && |z| != |y|
    ensures exists w :: NormalizeModelName(NormalizeModelName(w)) != NormalizeModelName(w)
  {
    assert NormalizeModelName(NormalizeModelName(x)) != NormalizeModelName(x);
  }

  lemma {:induction false} SpaceHyphenLower()
    ensures Lower(" -gpt") == " -gpt"
  {
  }

  lemma {:induction false} SpaceHyphenCollapse()
    ensures CollapseRuns(" -gpt", '-') == " -gpt"
  {
    assert NoRun(" -gpt", '-');
    CollapseRunsKeeps(" -gpt", '-');
  }

  lemma {:induction false} SpaceHyphenStrip()
    ensures Strip(" -gpt", {'-'}) == " -gpt"
  {
    StripKeeps(" -gpt", {'-'});
  }

  lemma {:induction false} SpaceHyphenSplit()
    ensures Split(" -gpt") == ["-gpt"]
  {
    assert " -gpt"[1..] == "-gpt";
    assert WordLength("-gpt") == 4;
    assert "-gpt"[..4] == "-gpt" && "-gpt"[4..] == [];
  }

  lemma {:induction false} SpaceHyphenTidy()
    ensures Tidy(" -gpt") == "-gpt"
  {
    SpaceHyphenLower();
    SpaceHyphenCollapse();
    SpaceHyphenStrip();
    SpaceHyphenSplit();
  }

  /**
    * The `-` trim runs before the whitespace collapse, so a `-` that sits
    * next to whitespace at either end survives it.
    */
  lemma {:induction false} HyphenNextToSpaceSurvives(namespace: string)
    ensures NormalizeModelName(namespace + "/ -gpt") == "-gpt"
  {
    var n := NewNormalizer(None);
    var full := namespace + "/ -gpt";
    assert full == namespace + "/" + " -gpt" by {
      ConcatAssoc(namespace, "/", " -gpt");
      assert "/" + " -gpt" == "/ -gpt";
    }
    NormalizeAfterNamespace(n, namespace, " -gpt");
    SpaceHyphenRules();
    SpaceHyphenTidy();
    assert Normalize(n, full) == "-gpt";
  }

  lemma {:induction false} SpaceHyphenRules()
    ensures ApplyRules(DefaultRules, " -gpt", true) == " -gpt"
  {
    var x := " -gpt";
    assert !AtomMatches(YearSuffix.pattern[0], x[0], true);
    ApplyRulesUnmatched(DefaultRules, x, true);
  }

  /** `remove_version_suffix` drops the compact date of `claude-3-opus-20240229`. */
  lemma {:induction false} RemoveVersionSuffixExample()
    ensures RemoveVersionSuffix("claude-3-opus-20240229") == "claude-3-opus"
  {
    var x, y := "claude-3-opus-20240229", "claude-3-opus";
    assert SuffixMatches(x, DateCompact.pattern, false);
    assert ApplyRule(DateCompact, x, false) == y;
    assert !AtomMatches(DateIso.pattern[0], y[2], false);
    assert !AtomMatches(YearSuffix.pattern[1], y[9], false);
  }

  /** The provider is the text before the first `/`. */
  lemma {:induction false} ExtractProviderAt(name: string, i: nat)
    requires i < |name| && name[i] == '/' && forall j :: 0 <= j < i ==> name[j] != '/'
    ensures ExtractProvider(name) == Some(name[..i])
  {
    var v := ExtractProvider(name).value;
    assert |v| >= i;
    assert forall k :: 0 <= k < |v| ==> name[k] == v[k] && v[k] != '/';
  }

  /** `extract_provider_from_model` on the two documented inputs. */
  lemma {:induction false} ExtractProviderExamples()
    ensures ExtractProvider("openai/gpt-4") == Some("openai")
    ensures ExtractProvider("gpt-4") == None
  {
    OpenAiName();
    ExtractProviderAt("openai/gpt-4", 6);
  }

  lemma {:induction false} OpenAiName()
    ensures var x := "openai/gpt-4";
      && |x| == 12 && x[6] == '/' && (forall j :: 0 <= j < 6 ==> x[j] != '/') && x[..6] == "openai"
    ensures '/' !in "gpt-4"
  {
    var y := "gpt-4";
    assert forall j :: 0 <= j < |y| ==> y[j] != '/';
  }
}

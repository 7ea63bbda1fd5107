/**
 * Choosing a model provider from a model name, as the agent factory does
 * when a workflow names a model but no provider.
 */
module AgentFactory {
  import opened Strings

  /** The four providers the factory knows. */
  predicate IsProvider(p: string)
  {
    p == "Gemini" || p == "OpenAI" || p == "Anthropic" || p == "DeepSeek"
  }

  predicate GeminiName(lower: string)
  {
    StartsWith(lower, "gemini") || StartsWith(lower, "models/gemini")
  }

  predicate OpenAIName(lower: string)
  {
    StartsWith(lower, "gpt") || StartsWith(lower, "o1")
  }

  /**
   * `infer_provider_from_model`: a chain of prefix tests on the lower-cased
   * name, with Gemini as the fallback.  Because no two of the prefixes can
   * start the same name, each provider is chosen exactly when one of its
   * own prefixes matches, whatever the order of the tests.
   */
  function InferProvider(modelName: string): (r: string)
    ensures IsProvider(r)
    ensures r == "OpenAI" <==> OpenAIName(ToLower(modelName))
    ensures r == "Anthropic" <==> StartsWith(ToLower(modelName), "claude")
    ensures r == "DeepSeek" <==> StartsWith(ToLower(modelName), "deepseek")
    ensures r == "Gemini" <==>
      !OpenAIName(ToLower(modelName)) &&
      !StartsWith(ToLower(modelName), "claude") &&
      !StartsWith(ToLower(modelName), "deepseek")
  {
    var lower := ToLower(modelName);
    PrefixesExclusive(lower);
    if GeminiName(lower) then "Gemini"
    else if OpenAIName(lower) then "OpenAI"
    else if StartsWith(lower, "claude") then "Anthropic"
    else if StartsWith(lower, "deepseek") then "DeepSeek"
    else "Gemini"
  }

  /** Two prefixes that differ at some position cannot both start a name. */
  lemma DifferentPrefixes(s: string, p: string, q: string, i: nat)
    requires i < |p| && i < |q| && p[i] != q[i]
    ensures !(StartsWith(s, p) && StartsWith(s, q))
  {
    if StartsWith(s, p) && |q| <= |s| {
      assert s[..|q|][i] == s[i] == s[..|p|][i] == p[i];
      assert s[..|q|] != q;
    }
  }

  /** The provider prefixes are pairwise exclusive. */
  lemma PrefixesExclusive(lower: string)
    ensures GeminiName(lower) ==> !OpenAIName(lower) && !StartsWith(lower, "claude") && !StartsWith(lower, "deepseek")
    ensures OpenAIName(lower) ==> !StartsWith(lower, "claude") && !StartsWith(lower, "deepseek")
    ensures !(StartsWith(lower, "claude") && StartsWith(lower, "deepseek"))
  {
    DifferentPrefixes(lower, "gemini", "gpt", 1);
    DifferentPrefixes(lower, "gemini", "o1", 0);
    DifferentPrefixes(lower, "gemini", "claude", 0);
    DifferentPrefixes(lower, "gemini", "deepseek", 0);
    DifferentPrefixes(lower, "models/gemini", "gpt", 0);
    DifferentPrefixes(lower, "models/gemini", "o1", 0);
    DifferentPrefixes(lower, "models/gemini", "claude", 0);
    DifferentPrefixes(lower, "models/gemini", "deepseek", 0);
    DifferentPrefixes(lower, "gpt", "claude", 0);
    DifferentPrefixes(lower, "gpt", "deepseek", 0);
    DifferentPrefixes(lower, "o1", "claude", 0);
    DifferentPrefixes(lower, "o1", "deepseek", 0);
    DifferentPrefixes(lower, "claude", "deepseek", 0);
  }

  lemma {:induction false} ToLowerIdempotent(s: string)
    ensures ToLower(ToLower(s)) == ToLower(s)
  {
    var t := ToLower(s);
    assert forall i :: 0 <= i < |s| ==> LowerChar(t[i]) == t[i];
  }

  /** Matching ignores case: a name and its lower-cased form get the same provider. */
  lemma InferProviderIgnoresCase(modelName: string)
    ensures InferProvider(ToLower(modelName)) == InferProvider(modelName)
  {
    ToLowerIdempotent(modelName);
  }

  /** Names that differ only in letter case get the same provider. */
  lemma InferProviderSameLower(a: string, b: string)
    requires ToLower(a) == ToLower(b)
    ensures InferProvider(a) == InferProvider(b)
  {
  }

  /** The Kelvin sign lower-cases to `k`, so it can end the DeepSeek prefix. */
  lemma InferProviderKelvin(rest: string)
    ensures InferProvider("deepsee\U{212A}" + rest) == "DeepSeek"
  {
    var s := "deepsee\U{212A}" + rest;
    assert forall i :: 0 <= i < 8 ==> LowerChar(s[i]) == "deepseek"[i];
    assert ToLower(s)[..8] == "deepseek";
  }

  /** The empty name falls back to Gemini. */
  lemma InferProviderEmpty()
    ensures InferProvider("") == "Gemini"
  {
    assert ToLower("") == "";
  }
}

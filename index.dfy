/** The model resolver of `lib/ai/index.ts`: the allow-lists, the choice of a
    reasoning model with its warnings, the choice of a provider from the
    configured keys, and the wrapping of the bound model with the middleware. */
module Resolver {

  import opened Seqs
  import opened Strings
  import opened Environment
  import opened CustomMiddleware
  import Models

  /** The models accepted for research analysis and structured output. */
  const ValidReasoningModels: seq<string> := [
    "openai/gpt-4-0125-preview",
    "openai/gpt-4",
    "openai/gpt-3.5-turbo",
    "anthropic/claude-3-opus",
    "anthropic/claude-3-sonnet",
    "anthropic/claude-2.1",
    "google/gemini-pro",
    "mistral-ai/mistral-medium",
    "o1", "o1-mini", "o3-mini",
    "deepseek-ai/DeepSeek-R1",
    "deepseek-reasoner",
    "gpt-4o"
  ]

  /** The models that support JSON structured output. */
  const JsonSupportedModels: seq<string> := [
    "openai/gpt-4-0125-preview",
    "openai/gpt-4",
    "openai/gpt-3.5-turbo",
    "anthropic/claude-3-opus",
    "anthropic/claude-3-sonnet",
    "anthropic/claude-2.1",
    "gpt-4o", "gpt-4o-mini", "o1", "o3-mini"
  ]

  const FallbackReasoningModel: string := "o1-mini"

  /** `supportsJsonOutput`. */
  predicate SupportsJsonOutput(modelId: string)
  {
    modelId in JsonSupportedModels
  }

  /** `REASONING_MODEL`: the variable, or `o1-mini` when it is unset or empty. */
  function ConfiguredReasoningModel(env: Env): string
  {
    OrDefault(env.reasoningModel, FallbackReasoningModel)
  }

  /** `BYPASS_JSON_VALIDATION`: on only for the exact text `true`. */
  predicate BypassJsonValidation(env: Env)
  {
    env.bypassJsonValidation == Some("true")
  }

  /** A chosen model and the warnings printed while choosing it. */
  datatype Choice = Choice(modelId: string, warnings: seq<string>)

  function InvalidModelWarning(configured: string): string
  {
    "Invalid REASONING_MODEL \"" + configured + "\", falling back to " + FallbackReasoningModel
  }

  function NoJsonWarning(configured: string): string
  {
    "Warning: Model " + configured + " does not support JSON schema. Set BYPASS_JSON_VALIDATION=true to override"
  }

  /** `getReasoningModel`. */
  function GetReasoningModel(modelId: string, env: Env): Choice
  {
    if modelId in ValidReasoningModels then Choice(modelId, [])
    else
      var configured := ConfiguredReasoningModel(env);
      if configured !in ValidReasoningModels then
        Choice(FallbackReasoningModel, [InvalidModelWarning(configured)])
      else if !BypassJsonValidation(env) && !SupportsJsonOutput(configured) then
        Choice(configured, [NoJsonWarning(configured)])
      else
        Choice(configured, [])
  }

  /** The chosen model is always on the allow-list: an allowed request is kept
      as it is, and otherwise the configured model is used when it is allowed
      and `o1-mini` when it is not. At most one warning is printed, and none
      when the request was already allowed. */
  lemma ReasoningModelIsAllowed(modelId: string, env: Env)
    ensures var c := GetReasoningModel(modelId, env);
      && c.modelId in ValidReasoningModels
      && |c.warnings| <= 1
      && (modelId in ValidReasoningModels ==> c == Choice(modelId, []))
      && (modelId !in ValidReasoningModels && ConfiguredReasoningModel(env) in ValidReasoningModels ==>
            c.modelId == ConfiguredReasoningModel(env))
      && (modelId !in ValidReasoningModels && ConfiguredReasoningModel(env) !in ValidReasoningModels ==>
            c.modelId == FallbackReasoningModel)
  {
    assert ValidReasoningModels[9] == FallbackReasoningModel;
  }

  /** A warning is printed exactly when the request is not allowed and either
      the configured model is not allowed (the warning then quotes it) or it
      lacks JSON support and the bypass is off (the warning then names it). */
  lemma ReasoningModelWarnings(modelId: string, env: Env)
    ensures var c, m := GetReasoningModel(modelId, env), ConfiguredReasoningModel(env);
      && (c.warnings != [] <==>
            modelId !in ValidReasoningModels
            && (m !in ValidReasoningModels || (!BypassJsonValidation(env) && !SupportsJsonOutput(m))))
      && (c.warnings != [] ==> Contains(c.warnings[0], m))
  {
    var m := ConfiguredReasoningModel(env);
    ContainsSpliced("Invalid REASONING_MODEL \"", m, "\", falling back to " + FallbackReasoningModel);
    assert InvalidModelWarning(m) == "Invalid REASONING_MODEL \"" + m + ("\", falling back to " + FallbackReasoningModel);
    ContainsSpliced("Warning: Model ", m, " does not support JSON schema. Set BYPASS_JSON_VALIDATION=true to override");
  }

  /** With `REASONING_MODEL` unset or empty, a request off the allow-list gets `o1-mini`,
      which is allowed but not JSON-capable: unless the bypass is on, the
      default configuration always warns. */
  lemma DefaultReasoningModelWarns(modelId: string, env: Env)
    requires modelId !in ValidReasoningModels && !IsSet(env.reasoningModel)
    ensures GetReasoningModel(modelId, env).modelId == FallbackReasoningModel
    ensures GetReasoningModel(modelId, env).warnings != [] <==> !BypassJsonValidation(env)
  {
    assert ValidReasoningModels[9] == FallbackReasoningModel;
    assert FallbackReasoningModel !in JsonSupportedModels by {
      forall i | 0 <= i < |JsonSupportedModels| ensures JsonSupportedModels[i] != FallbackReasoningModel {
        if i == 9 {
          assert JsonSupportedModels[9][1] != FallbackReasoningModel[1];
        }
      }
    }
  }

  // ---------------------------------------------------------------------------
  // Provider selection

  /** A key counts when it is truthy and not the `****` placeholder. */
  predicate HasKey(key: Option<string>)
  {
    IsSet(key) && key.value != "****"
  }

  predicate HasOpenRouterKey(env: Env)
  {
    HasKey(env.openRouterApiKey)
  }

  predicate HasOpenAIKey(env: Env)
  {
    HasKey(env.openAIApiKey)
  }

  datatype ProviderKind = OpenRouter | OpenAI | TogetherAI | DeepSeek

  /** A provider factory applied to a model name: `openrouter(modelId)` and
      the like. */
  datatype Binding = Binding(provider: ProviderKind, modelName: string)

  const OpenAIPrefix: string := "openai/"
  const TogetherModel: string := "deepseek-ai/DeepSeek-R1"
  const DeepSeekModel: string := "deepseek-reasoner"

  /** The provider chain of `customModel`. */
  function SelectProvider(modelId: string, env: Env): Binding
  {
    if HasOpenRouterKey(env) then Binding(OpenRouter, modelId)
    else if StartsWith(modelId, OpenAIPrefix) && HasOpenAIKey(env) then
      Binding(OpenAI, ReplaceFirst(modelId, OpenAIPrefix, ""))
    else if modelId == TogetherModel then Binding(TogetherAI, modelId)
    else if modelId == DeepSeekModel then Binding(DeepSeek, modelId)
    else Binding(OpenAI, StripThroughFirstSlash(modelId))
  }

  /** Which provider serves a model: OpenRouter exactly when its key counts,
      and then with the full identifier; otherwise TogetherAI and DeepSeek for
      their one model each, under its full identifier; OpenAI for all the
      rest. */
  lemma ProviderChoice(modelId: string, env: Env)
    ensures var b := SelectProvider(modelId, env);
      && (b.provider == OpenRouter <==> HasOpenRouterKey(env))
      && (b.provider == OpenRouter ==> b.modelName == modelId)
      && (b.provider == TogetherAI <==> !HasOpenRouterKey(env) && modelId == TogetherModel)
      && (b.provider == DeepSeek <==> !HasOpenRouterKey(env) && modelId == DeepSeekModel)
      && (b.provider == OpenAI <==> !HasOpenRouterKey(env) && modelId != TogetherModel && modelId != DeepSeekModel)
      && (b.provider in {TogetherAI, DeepSeek} ==> b.modelName == modelId)
  {
    assert !StartsWith(TogetherModel, OpenAIPrefix) by {
      assert TogetherModel[0] != OpenAIPrefix[0];
    }
    assert !StartsWith(DeepSeekModel, OpenAIPrefix) by {
      assert DeepSeekModel[0] != OpenAIPrefix[0];
    }
  }

  /** Without an OpenRouter key, an `openai/…` identifier goes to OpenAI under
      the rest of the identifier, and the OpenAI key makes no difference: the
      prefix replacement and the regular-expression strip drop the same
      prefix. */
  lemma OpenAIKeyDoesNotChangeBinding(name: string, env: Env)
    requires !HasOpenRouterKey(env)
    ensures SelectProvider(OpenAIPrefix + name, env) == Binding(OpenAI, name)
  {
    var id := OpenAIPrefix + name;
    assert id[..|OpenAIPrefix|] == OpenAIPrefix;
    assert id != TogetherModel by {
      assert id[0] != TogetherModel[0];
    }
    assert id != DeepSeekModel by {
      assert id[0] != DeepSeekModel[0];
    }
    if HasOpenAIKey(env) {
      ReplacePrefix(id, OpenAIPrefix);
      assert id[|OpenAIPrefix|..] == name;
    } else {
      assert !HasLineTerminator("openai");
      StripFirstSegment("openai", name);
      assert "openai" + "/" + name == id;
    }
  }

  /** The bareword fallback: without an OpenRouter key, an identifier `p/q`
      whose first segment has no line terminator reaches OpenAI as `q`. An OpenAI key changes nothing: the
      only `p/q` it diverts is `openai/q`, and the prefix replacement drops the
      same segment. */
  lemma FallbackDropsFirstSegment(p: string, q: string, env: Env)
    requires !HasOpenRouterKey(env)
    requires '/' !in p && !HasLineTerminator(p)
    requires p + "/" + q != TogetherModel && p + "/" + q != DeepSeekModel
    ensures SelectProvider(p + "/" + q, env) == Binding(OpenAI, q)
  {
    var s := p + "/" + q;
    StripFirstSegment(p, q);
    if StartsWith(s, OpenAIPrefix) {
      OpenAIPrefixIsFirstSegment(p, q);
      ReplacePrefix(s, OpenAIPrefix);
      assert s[|OpenAIPrefix|..] == q;
    }
  }

  /** A line terminator in the first segment of `p/q` keeps the regular
      expression from matching, so without an OpenRouter key the whole id
      reaches OpenAI. */
  lemma LineTerminatorKeepsWholeId(p: string, q: string, env: Env)
    requires !HasOpenRouterKey(env)
    requires '/' !in p && HasLineTerminator(p)
    ensures SelectProvider(p + "/" + q, env) == Binding(OpenAI, p + "/" + q)
  {
    var s := p + "/" + q;
    StripBlockedByLineTerminator(p, q);
    var i :| 0 <= i < |p| && IsLineTerminator(p[i]);
    assert IsLineTerminator(s[i]);
    NoLineTerminatorInBindingNames();
    assert !StartsWith(s, OpenAIPrefix) by {
      if StartsWith(s, OpenAIPrefix) {
        OpenAIPrefixIsFirstSegment(p, q);
      }
    }
  }

  /** The names the provider chain compares against hold no line terminator. */
  lemma NoLineTerminatorInBindingNames()
    ensures forall i :: 0 <= i < |TogetherModel| ==> !IsLineTerminator(TogetherModel[i])
    ensures forall i :: 0 <= i < |DeepSeekModel| ==> !IsLineTerminator(DeepSeekModel[i])
    ensures forall i :: 0 <= i < |OpenAIPrefix| ==> !IsLineTerminator(OpenAIPrefix[i])
  {
  }

  /** An identifier without a `/` reaches OpenAI unchanged when it is neither
      the TogetherAI nor the DeepSeek model, whatever it contains: the prefix
      test fails and the regular expression finds nothing to strip. */
  lemma NoSlashReachesOpenAIUnchanged(id: string, env: Env)
    requires !HasOpenRouterKey(env)
    requires '/' !in id && id != TogetherModel && id != DeepSeekModel
    ensures SelectProvider(id, env) == Binding(OpenAI, id)
  {
    assert !StartsWith(id, OpenAIPrefix) by {
      if StartsWith(id, OpenAIPrefix) {
        PrefixCharAt(OpenAIPrefix, id, 6);
      }
    }
  }

  /** An identifier `p/q` with a `/`-free `p` starts with `openai/` only when
      `p` is `openai`. */
  lemma OpenAIPrefixIsFirstSegment(p: string, q: string)
    requires '/' !in p && StartsWith(p + "/" + q, OpenAIPrefix)
    ensures p == "openai"
  {
    var s := p + "/" + q;
    assert s[|p|] == '/';
    assert |p| == 6 by {
      if |p| < 6 {
        PrefixCharAt(OpenAIPrefix, s, |p|);
      } else if |p| > 6 {
        PrefixCharAt(p, s, 6);
        PrefixCharAt(OpenAIPrefix, s, 6);
      }
    }
    assert p == s[..|OpenAIPrefix|][..6];
  }

  /** A character of a prefix of `s` is that character of `s`. */
  lemma PrefixCharAt(p: string, s: string, k: nat)
    requires k < |p| <= |s| && s[..|p|] == p
    ensures p[k] == s[k]
  {
  }

  // ---------------------------------------------------------------------------
  // The wrapped model

  /** `wrapLanguageModel({ model, middleware: customMiddleware })`, with the
      warnings printed on the way. */
  datatype WrappedModel = WrappedModel(model: Binding, middleware: Middleware, warnings: seq<string>)

  /** `customModel(apiIdentifier, forReasoning)`. */
  function CustomModel(apiIdentifier: string, forReasoning: bool, env: Env): WrappedModel
  {
    var choice := if forReasoning then GetReasoningModel(apiIdentifier, env) else Choice(apiIdentifier, []);
    WrappedModel(SelectProvider(choice.modelId, env), Attribution, choice.warnings)
  }

  /** Outside reasoning, the identifier is bound as given and nothing is
      printed; for reasoning, an allowed identifier is treated the same, and any
      other is replaced by an allowed one. */
  lemma CustomModelUsesReasoningChoice(apiIdentifier: string, env: Env)
    ensures CustomModel(apiIdentifier, false, env) == WrappedModel(SelectProvider(apiIdentifier, env), Attribution, [])
    ensures apiIdentifier in ValidReasoningModels ==>
      CustomModel(apiIdentifier, true, env) == CustomModel(apiIdentifier, false, env)
    ensures var c := GetReasoningModel(apiIdentifier, env);
      CustomModel(apiIdentifier, true, env) == WrappedModel(SelectProvider(c.modelId, env), Attribution, c.warnings)
    ensures exists m :: m in ValidReasoningModels && CustomModel(apiIdentifier, true, env).model == SelectProvider(m, env)
  {
    ReasoningModelIsAllowed(apiIdentifier, env);
  }

  /** The default model name is the bare `gpt-4-0125-preview`, while the
      allow-list only has its `openai/` form: asked for reasoning, it is
      replaced. Without an OpenRouter key it reaches OpenAI unchanged. */
  lemma DefaultModelBinding(env: Env)
    requires !HasOpenRouterKey(env)
    ensures Models.DefaultModelName !in ValidReasoningModels
    ensures CustomModel(Models.DefaultModelName, false, env).model == Binding(OpenAI, Models.DefaultModelName)
  {
    var d := Models.DefaultModelName;
    assert d !in ValidReasoningModels by {
      forall i | 0 <= i < |ValidReasoningModels| ensures ValidReasoningModels[i] != d {
        assert |ValidReasoningModels[i]| != |d|;
      }
    }
    assert '/' !in d;
    assert !StartsWith(d, OpenAIPrefix) by {
      if StartsWith(d, OpenAIPrefix) {
        PrefixCharAt(OpenAIPrefix, d, 0);
      }
    }
    assert d != TogetherModel && d != DeepSeekModel by {
      assert d[0] != TogetherModel[0] && d[0] != DeepSeekModel[0];
    }
  }

  /** The placeholder key `****` does not select OpenRouter, yet the middleware
      still adds the OpenRouter headers: the two tests disagree. */
  lemma PlaceholderKeyStillAddsHeaders(apiIdentifier: string, env: Env, request: Request)
    requires env.openRouterApiKey == Some("****")
    ensures CustomModel(apiIdentifier, false, env).model.provider != OpenRouter
    ensures Attribution.ModifyRequest(request, env).headers.Some?
    ensures RefererHeader in Attribution.ModifyRequest(request, env).headers.value
    ensures TitleHeader in Attribution.ModifyRequest(request, env).headers.value
  {
  }
}

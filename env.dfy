/** The process environment the resolver and the middleware read, and
    JavaScript's truthiness test on an environment variable. */
module Environment {

  import opened Seqs

  /** The variables that matter here; `None` is an unset variable. */
  datatype Env = Env(
    openRouterApiKey: Option<string>,  // OPENROUTER_API_KEY
    openAIApiKey: Option<string>,      // OPENAI_API_KEY
    reasoningModel: Option<string>,    // REASONING_MODEL
    bypassJsonValidation: Option<string>,  // BYPASS_JSON_VALIDATION
    appUrl: Option<string>)            // NEXT_PUBLIC_APP_URL

  /** The variable is truthy: set, and not the empty string. */
  predicate IsSet(v: Option<string>)
  {
    v.Some? && v.value != ""
  }

  /** `v || fallback`. */
  function OrDefault(v: Option<string>, fallback: string): string
  {
    if IsSet(v) then v.value else fallback
  }
}

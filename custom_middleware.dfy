/** The request middleware of `lib/ai/custom-middleware.ts`: its
    `experimental_modifyRequest` returns the request with two attribution
    headers added when an OpenRouter key is set, and the request untouched
    otherwise. */
module CustomMiddleware {

  import opened Seqs
  import opened Environment

  /** A request handed to the function: its header object (`None` when it has none) and
      every other field, which the middleware copies as they are. */
  datatype Request = Request(headers: Option<map<string, string>>, otherFields: map<string, string>)

  const RefererHeader: string := "HTTP-Referer"
  const TitleHeader: string := "X-Title"
  const DefaultAppUrl: string := "http://localhost:3000"
  const AppTitle: string := "Open Deep Research"

  /** `{...headers}` of a request: an absent header object spreads to nothing. */
  function HeadersOf(request: Request): map<string, string>
  {
    if request.headers.Some? then request.headers.value else map[]
  }

  /** The header values the middleware sets. */
  function AttributionHeaders(env: Env): map<string, string>
  {
    map[RefererHeader := OrDefault(env.appUrl, DefaultAppUrl), TitleHeader := AppTitle]
  }

  /** `customMiddleware`, the value handed to the model wrapper. */
  datatype Middleware = Attribution
  {
    /** `experimental_modifyRequest`. The test is plain truthiness of
        `OPENROUTER_API_KEY`, so the placeholder `****` also adds the headers. */
    function ModifyRequest(request: Request, env: Env): Request
    {
      if IsSet(env.openRouterApiKey) then
        Request(Some(HeadersOf(request) + AttributionHeaders(env)), request.otherFields)
      else
        request
    }
  }

  /** With a key, the request keeps its other fields and its other headers,
      and gains the referer (the app URL, or the local default) and the title,
      overriding any earlier values of those two. Without one it is returned
      as it is. */
  lemma ModifyRequestEffect(request: Request, env: Env)
    ensures var r := Attribution.ModifyRequest(request, env);
      && (!IsSet(env.openRouterApiKey) ==> r == request)
      && (IsSet(env.openRouterApiKey) ==>
            && r.otherFields == request.otherFields
            && r.headers.Some?
            && r.headers.value.Keys == HeadersOf(request).Keys + {RefererHeader, TitleHeader}
            && r.headers.value[TitleHeader] == AppTitle
            && r.headers.value[RefererHeader] == (if IsSet(env.appUrl) then env.appUrl.value else DefaultAppUrl)
            && forall h :: h in HeadersOf(request) && h != RefererHeader && h != TitleHeader ==>
                 r.headers.value[h] == HeadersOf(request)[h])
  {
    assert RefererHeader != TitleHeader by {
      assert RefererHeader[0] != TitleHeader[0];
    }
  }

  /** Applying the middleware twice is the same as applying it once. */
  lemma ModifyRequestIdempotent(request: Request, env: Env)
    ensures Attribution.ModifyRequest(Attribution.ModifyRequest(request, env), env)
         == Attribution.ModifyRequest(request, env)
  {
    if IsSet(env.openRouterApiKey) {
      var h := HeadersOf(request) + AttributionHeaders(env);
      assert h + AttributionHeaders(env) == h;
    }
  }
}

/** The catalog refresh of `lib/ai/fetch-models.ts`: the raw OpenRouter
    listing is sorted by descending context length, every entry is turned into
    a `Model` (category, tags, ids, description, capabilities), and the
    catalog store is replaced, but only when the listing was retrieved. */
module FetchModels {

  import opened Seqs
  import opened Strings
  import opened Models

  datatype RawPricing = RawPricing(prompt: string, completion: string)

  /** One entry of the upstream listing (`OpenRouterModel`); an absent
      `description` is `None`. */
  datatype RawModel = RawModel(
    id: string,
    name: string,
    description: Option<string>,
    contextLength: int,
    pricing: RawPricing)

  // ---------------------------------------------------------------------------
  // Categorisation

  /** One row of the categorisation table: a category and the substrings any
      one of which selects it. */
  datatype CategoryRule = CategoryRule(markers: seq<string>, category: ModelCategory)

  const CategoryRules: seq<CategoryRule> := [
    CategoryRule(["gpt-4", "claude-3", "gemini-1"], Latest),
    CategoryRule(["gpt-3.5", "mistral", "claude-2"], Efficient),
    CategoryRule(["code", "python", "instruct"], Specialized),
    CategoryRule(["llama", "mixtral", "yi", "falcon"], OpenSource)
  ]

  /** The category of the first rule whose markers occur in `id`, or `default`
      when no rule matches. */
  function FirstMatch(rules: seq<CategoryRule>, id: string, default: ModelCategory): (r: ModelCategory)
    ensures
      || (exists i :: 0 <= i < |rules| && AnyContains(id, rules[i].markers) && r == rules[i].category
           && forall j :: 0 <= j < i ==> !AnyContains(id, rules[j].markers))
      || ((forall i :: 0 <= i < |rules| ==> !AnyContains(id, rules[i].markers)) && r == default)
  {
    if rules == [] then default
    else if AnyContains(id, rules[0].markers) then rules[0].category
    else
      var r := FirstMatch(rules[1..], id, default);
      assert forall i :: 1 <= i < |rules| ==> rules[i] == rules[1..][i - 1];
      r
  }

  /** `getModelCategory`: case-sensitive substring tests on the raw id, first
      match wins, `Latest` when nothing matches. It is the categorisation table
      read in order. */
  function GetModelCategory(modelId: string): ModelCategory
  {
    if Contains(modelId, "gpt-4") || Contains(modelId, "claude-3") || Contains(modelId, "gemini-1") then
      Latest
    else if Contains(modelId, "gpt-3.5") || Contains(modelId, "mistral") || Contains(modelId, "claude-2") then
      Efficient
    else if Contains(modelId, "code") || Contains(modelId, "python") || Contains(modelId, "instruct") then
      Specialized
    else if Contains(modelId, "llama") || Contains(modelId, "mixtral") || Contains(modelId, "yi")
      || Contains(modelId, "falcon") then
      OpenSource
    else
      Latest
  }

  /** The if-chain is the categorisation table read in order. */
  lemma CategoryFollowsTable(modelId: string)
    ensures GetModelCategory(modelId) == FirstMatch(CategoryRules, modelId, Latest)
  {
    var rs := CategoryRules;
    AnyContains3(modelId, "gpt-4", "claude-3", "gemini-1");
    AnyContains3(modelId, "gpt-3.5", "mistral", "claude-2");
    AnyContains3(modelId, "code", "python", "instruct");
    AnyContains4(modelId, "llama", "mixtral", "yi", "falcon");
    assert rs[1..] == [rs[1], rs[2], rs[3]] && rs[1..][1..] == [rs[2], rs[3]];
    assert rs[1..][1..][1..] == [rs[3]] && rs[1..][1..][1..][1..] == [];
  }

  /** An earlier rule wins over a later one: an id naming both `gpt-4` and
      `mistral` is `Latest`, not `Efficient`. */
  lemma EarlierRuleWins(modelId: string)
    requires Contains(modelId, "gpt-4") && Contains(modelId, "mistral")
    ensures GetModelCategory(modelId) == Latest
  {
  }

  /** Every marker starts with a lower-case letter, so an id without
      lower-case letters matches no rule and falls back to `Latest`. */
  lemma NoLowerCaseIdIsLatest(modelId: string)
    requires HasNoLowerCase(modelId)
    ensures GetModelCategory(modelId) == Latest
  {
    NotContainsByFirstChar(modelId, "gpt-4");
    NotContainsByFirstChar(modelId, "claude-3");
    NotContainsByFirstChar(modelId, "gemini-1");
    NotContainsByFirstChar(modelId, "gpt-3.5");
    NotContainsByFirstChar(modelId, "mistral");
    NotContainsByFirstChar(modelId, "claude-2");
    NotContainsByFirstChar(modelId, "code");
    NotContainsByFirstChar(modelId, "python");
    NotContainsByFirstChar(modelId, "instruct");
    NotContainsByFirstChar(modelId, "llama");
    NotContainsByFirstChar(modelId, "mixtral");
    NotContainsByFirstChar(modelId, "yi");
    NotContainsByFirstChar(modelId, "falcon");
  }

  /** The tests are case-sensitive: `mistral` is `Efficient` ... */
  lemma LowerCaseMistralIsEfficient()
    ensures GetModelCategory("mistral") == Efficient
  {
    var id := "mistral";
    assert 'g' !in id && 'c' !in id by {
      assert id == ['m', 'i', 's', 't', 'r', 'a', 'l'];
    }
    NotContainsByFirstChar(id, "gpt-4");
    NotContainsByFirstChar(id, "claude-3");
    NotContainsByFirstChar(id, "gemini-1");
    assert StartsWith(id, "mistral");
  }

  /** ... while `MISTRAL` falls back to `Latest`. */
  lemma UpperCaseMistralIsLatest()
    ensures GetModelCategory("MISTRAL") == Latest
  {
    assert HasNoLowerCase("MISTRAL") by {
      assert "MISTRAL" == ['M', 'I', 'S', 'T', 'R', 'A', 'L'];
    }
    NoLowerCaseIdIsLatest("MISTRAL");
  }

  // ---------------------------------------------------------------------------
  // Tags

  const HighContextThreshold: int := 32000

  /** The outcome of the six tests of `generateTags`. */
  datatype TagTests = TagTests(
    vision: bool, coding: bool, reasoning: bool, fast: bool, openSource: bool, highContext: bool)

  /** The tests, run on the lowercased id and on the context length. */
  function RunTagTests(model: RawModel): TagTests
  {
    var id := ToLower(model.id);
    TagTests(
      Contains(id, "vision"),
      Contains(id, "code") || Contains(id, "python"),
      Contains(id, "gpt-4") || Contains(id, "claude"),
      Contains(id, "gpt-3.5") || Contains(id, "mistral"),
      Contains(id, "llama") || Contains(id, "mixtral") || Contains(id, "yi"),
      model.contextLength >= HighContextThreshold)
  }

  /** The pushes: starting from no tags, each tag is appended when its test
      holds. */
  function PushTags(t: TagTests): seq<string>
  {
    Optional(t.vision, "vision")
    + Optional(t.coding, "coding")
    + Optional(t.reasoning, "reasoning")
    + Optional(t.fast, "fast")
    + Optional(t.openSource, "open-source")
    + Optional(t.highContext, "high-context")
  }

  /** `generateTags`. */
  function GenerateTags(model: RawModel): seq<string>
  {
    PushTags(RunTagTests(model))
  }

  /** The order in which `generateTags` pushes its tags. */
  const TagOrder: seq<string> := ["vision", "coding", "reasoning", "fast", "open-source", "high-context"]

  /** Each tag is pushed exactly when its test holds ... */
  lemma PushedExactlyWhenTested(t: TagTests)
    ensures var tags := PushTags(t);
      && ("vision" in tags <==> t.vision) && ("coding" in tags <==> t.coding)
      && ("reasoning" in tags <==> t.reasoning) && ("fast" in tags <==> t.fast)
      && ("open-source" in tags <==> t.openSource) && ("high-context" in tags <==> t.highContext)
  {
    assert "vision"[0] == 'v' && "coding"[0] == 'c' && "reasoning"[0] == 'r';
    assert "fast"[0] == 'f' && "open-source"[0] == 'o' && "high-context"[0] == 'h';
    var tags := PushTags(t);
    assert "vision" in tags <==> t.vision by {
      SixOptionalsMembers(t.vision, t.coding, t.reasoning, t.fast, t.openSource, t.highContext,
        "vision", "coding", "reasoning", "fast", "open-source", "high-context", "vision");
    }
    assert "coding" in tags <==> t.coding by {
      SixOptionalsMembers(t.vision, t.coding, t.reasoning, t.fast, t.openSource, t.highContext,
        "vision", "coding", "reasoning", "fast", "open-source", "high-context", "coding");
    }
    assert "reasoning" in tags <==> t.reasoning by {
      SixOptionalsMembers(t.vision, t.coding, t.reasoning, t.fast, t.openSource, t.highContext,
        "vision", "coding", "reasoning", "fast", "open-source", "high-context", "reasoning");
    }
    assert "fast" in tags <==> t.fast by {
      SixOptionalsMembers(t.vision, t.coding, t.reasoning, t.fast, t.openSource, t.highContext,
        "vision", "coding", "reasoning", "fast", "open-source", "high-context", "fast");
    }
    assert "open-source" in tags <==> t.openSource by {
      SixOptionalsMembers(t.vision, t.coding, t.reasoning, t.fast, t.openSource, t.highContext,
        "vision", "coding", "reasoning", "fast", "open-source", "high-context", "open-source");
    }
    assert "high-context" in tags <==> t.highContext by {
      SixOptionalsMembers(t.vision, t.coding, t.reasoning, t.fast, t.openSource, t.highContext,
        "vision", "coding", "reasoning", "fast", "open-source", "high-context", "high-context");
    }
  }

  /** ... at most once, in the fixed order vision, coding, reasoning, fast,
      open-source, high-context. */
  lemma PushedInOrder(t: TagTests)
    ensures IsSubsequence(PushTags(t), TagOrder)
  {
    SixOptionalsInOrder(t.vision, t.coding, t.reasoning, t.fast, t.openSource, t.highContext,
      "vision", "coding", "reasoning", "fast", "open-source", "high-context");
  }

  lemma PushedOnce(t: TagTests)
    ensures NoDuplicates(PushTags(t))
  {
    assert NoDuplicates(TagOrder) by {
      assert TagOrder[0][0] == 'v' && TagOrder[1][0] == 'c' && TagOrder[2][0] == 'r';
      assert TagOrder[3][0] == 'f' && TagOrder[4][0] == 'o' && TagOrder[5][0] == 'h';
    }
    PushedInOrder(t);
    SubsequenceNoDuplicates(PushTags(t), TagOrder);
  }

  /** So every tag of an entry is present exactly when its test on the
      lowercased id (or on the context length) holds, and the tags come in the
      fixed order, each at most once. */
  lemma TagMembership(model: RawModel)
    ensures var tags, id := GenerateTags(model), ToLower(model.id);
      && ("vision" in tags <==> Contains(id, "vision"))
      && ("coding" in tags <==> Contains(id, "code") || Contains(id, "python"))
      && ("reasoning" in tags <==> Contains(id, "gpt-4") || Contains(id, "claude"))
      && ("fast" in tags <==> Contains(id, "gpt-3.5") || Contains(id, "mistral"))
      && ("open-source" in tags <==> Contains(id, "llama") || Contains(id, "mixtral") || Contains(id, "yi"))
      && ("high-context" in tags <==> model.contextLength >= HighContextThreshold)
    ensures IsSubsequence(GenerateTags(model), TagOrder) && NoDuplicates(GenerateTags(model))
  {
    PushedExactlyWhenTested(RunTagTests(model));
    PushedInOrder(RunTagTests(model));
    PushedOnce(RunTagTests(model));
  }

  // ---------------------------------------------------------------------------
  // Identifiers and description

  /** `fullId.split('/')[1] || fullId`: the segment after the first `/` (up to
      the next one), or the whole id when there is no such segment or it is
      empty. */
  function ModelIdOf(fullId: string): (r: string)
    ensures '/' !in fullId ==> r == fullId
    ensures '/' !in r || r == fullId
  {
    var parts := Split(fullId, '/');
    if |parts| > 1 && parts[1] != "" then parts[1] else fullId
  }

  /** For `p/q` with `p` free of `/`: the id is the first segment of `q`, or
      the whole `p/q` when that segment is empty (`openai/` stays `openai/`). */
  lemma ModelIdAfterFirstSlash(p: string, q: string)
    requires '/' !in p
    ensures ModelIdOf(p + "/" + q) == (var seg := q[..FirstIndexOf(q, '/')]; if seg != "" then seg else p + "/" + q)
  {
    var s := p + "/" + q;
    FirstIndexAfter(p, '/', q);
    assert s[..|p|] == p && s[|p| + 1..] == q;
    assert Split(s, '/') == [p] + Split(q, '/');
  }

  /** `model.name + " by " + providerId`, where `providerId` is the id before
      its first `/` (the whole id when it has none), unless the entry has a
      non-empty description. */
  function DescriptionOf(model: RawModel): (r: string)
    ensures model.description.Some? && model.description.value != "" ==> r == model.description.value
    ensures model.description.None? || model.description.value == "" ==>
      r == model.name + " by " + model.id[..FirstIndexOf(model.id, '/')]
  {
    var providerId := Split(model.id, '/')[0];
    if model.description.Some? && model.description.value != "" then model.description.value
    else model.name + " by " + providerId
  }

  // ---------------------------------------------------------------------------
  // Conversion of one entry

  /** The capability flags: substring tests on the raw (not lowercased) id,
      streaming always on. */
  function CapabilitiesOf(id: string): ModelCapabilities
  {
    ModelCapabilities(
      Contains(id, "vision"),
      true,
      AnyContains(id, ["gpt-4", "gpt-3.5"]),
      AnyContains(id, ["gpt-4", "gpt-3.5", "claude"]))
  }

  /** Function calling goes with `gpt-4` and `gpt-3.5`, JSON validation with
      those and `claude`; so every entry with function calling also has JSON
      validation. */
  lemma CapabilityFlags(id: string)
    ensures var caps := CapabilitiesOf(id);
      && (caps.vision <==> Contains(id, "vision"))
      && caps.streaming
      && (caps.functions <==> Contains(id, "gpt-4") || Contains(id, "gpt-3.5"))
      && (caps.jsonValidation <==> Contains(id, "gpt-4") || Contains(id, "gpt-3.5") || Contains(id, "claude"))
      && (caps.functions ==> caps.jsonValidation)
  {
    AnyContains2(id, "gpt-4", "gpt-3.5");
    AnyContains3(id, "gpt-4", "gpt-3.5", "claude");
  }

  /** The `.map` callback: one `Model` per raw entry. */
  function ToModel(model: RawModel): (r: Model)
    ensures r.id == ModelIdOf(model.id) && r.description == DescriptionOf(model)
    ensures r.category == GetModelCategory(model.id)
    ensures r.capabilities == CapabilitiesOf(model.id) && r.tags == GenerateTags(model)
    ensures r.apiIdentifier == model.id && r.displayLabel == model.name
    ensures r.contextWindow == model.contextLength
    ensures r.pricing.prompt.text == model.pricing.prompt && r.pricing.completion.text == model.pricing.completion
  {
    Model(
      ModelIdOf(model.id),
      model.name,
      model.id,
      DescriptionOf(model),
      GetModelCategory(model.id),
      OpenRouterProvider(),
      model.contextLength,
      Pricing(ParseFloat(model.pricing.prompt), ParseFloat(model.pricing.completion)),
      CapabilitiesOf(model.id),
      GenerateTags(model))
  }

  /** The capabilities of a converted entry, read off its raw id. */
  lemma ToModelCapabilities(model: RawModel)
    ensures var caps := ToModel(model).capabilities;
      && (caps.vision <==> Contains(model.id, "vision"))
      && caps.streaming
      && (caps.functions <==> Contains(model.id, "gpt-4") || Contains(model.id, "gpt-3.5"))
      && (caps.jsonValidation <==> Contains(model.id, "gpt-4") || Contains(model.id, "gpt-3.5") || Contains(model.id, "claude"))
  {
    CapabilityFlags(model.id);
    assert ToModel(model).capabilities == CapabilitiesOf(model.id);
  }

  /** Every converted entry is attached to the `openrouter` registry entry. */
  lemma ToModelProvider(model: RawModel)
    ensures ToModel(model).provider in Providers && ToModel(model).provider.id == "openrouter"
  {
    RegistryShape();
  }

  /** The vision capability reads the raw id and the tag the lowercased one:
      a model with the capability always has the tag ... */
  lemma VisionCapabilityHasTag(model: RawModel)
    ensures ToModel(model).capabilities.vision ==> "vision" in ToModel(model).tags
  {
    var t, caps := RunTagTests(model), CapabilitiesOf(model.id);
    assert caps.vision ==> t.vision by {
      if Contains(model.id, "vision") {
        LowerKeepsContains(model.id, "vision");
      }
    }
    assert ToModel(model).tags == PushTags(t) && ToModel(model).capabilities == caps;
    PushedExactlyWhenTested(t);
  }

  /** ... but not the other way round: an id written in capitals, such as
      `VISION`, gets the tag and not the capability. */
  lemma VisionTagWithoutCapability(model: RawModel)
    requires HasNoLowerCase(model.id) && Contains(ToLower(model.id), "vision")
    ensures "vision" in ToModel(model).tags && !ToModel(model).capabilities.vision
  {
    var t, caps := RunTagTests(model), CapabilitiesOf(model.id);
    assert t.vision && !caps.vision by {
      NotContainsByFirstChar(model.id, "vision");
    }
    assert ToModel(model).tags == PushTags(t) && ToModel(model).capabilities == caps;
    PushedExactlyWhenTested(t);
  }

  /** Function calling is only claimed for ids that are also tagged
      `reasoning` or `fast`. */
  lemma FunctionsImplyReasoningOrFast(model: RawModel)
    ensures ToModel(model).capabilities.functions ==>
      "reasoning" in ToModel(model).tags || "fast" in ToModel(model).tags
  {
    var t, caps := RunTagTests(model), CapabilitiesOf(model.id);
    assert caps.functions ==> t.reasoning || t.fast by {
      CapabilityFlags(model.id);
      if Contains(model.id, "gpt-4") {
        LowerKeepsContains(model.id, "gpt-4");
      } else if Contains(model.id, "gpt-3.5") {
        LowerKeepsContains(model.id, "gpt-3.5");
      }
    }
    assert ToModel(model).tags == PushTags(t) && ToModel(model).capabilities == caps;
    PushedExactlyWhenTested(t);
  }

  /** `.map(...)`: the entries converted one by one, in order. */
  function ToModels(raws: seq<RawModel>): seq<Model>
  {
    MapSeq(ToModel, raws)
  }

  // ---------------------------------------------------------------------------
  // Sorting by descending context length

  predicate SortedByContext(s: seq<RawModel>)
  {
    forall i, j :: 0 <= i < j < |s| ==> s[i].contextLength >= s[j].contextLength
  }

  /** Inserts `x` after every entry whose context length is at least its own. */
  function Insert(s: seq<RawModel>, x: RawModel): (r: seq<RawModel>)
    ensures |r| == |s| + 1
  {
    if s == [] || x.contextLength > s[0].contextLength then [x] + s
    else [s[0]] + Insert(s[1..], x)
  }

  lemma {:induction false} InsertPermutes(s: seq<RawModel>, x: RawModel)
    ensures multiset(Insert(s, x)) == multiset(s) + multiset{x}
  {
    if s != [] && x.contextLength <= s[0].contextLength {
      InsertPermutes(s[1..], x);
      assert s == [s[0]] + s[1..];
    }
  }

  lemma {:induction false} InsertSorted(s: seq<RawModel>, x: RawModel)
    requires SortedByContext(s)
    ensures SortedByContext(Insert(s, x))
  {
    if s != [] && x.contextLength <= s[0].contextLength {
      var tail := s[1..];
      InsertSorted(tail, x);
      var t := Insert(tail, x);
      assert t[0] == x || t[0] == s[1];
      assert forall k :: 0 <= k < |t| ==> t[k].contextLength <= s[0].contextLength;
      assert Insert(s, x) == [s[0]] + t;
    }
  }

  /** The order `sort((a, b) => b.context_length - a.context_length)` produces:
      JavaScript's sort is stable, and so is this insertion sort, which takes
      the entries left to right and puts each after the equal ones. */
  function SortDesc(s: seq<RawModel>): (r: seq<RawModel>)
    ensures |r| == |s|
  {
    if s == [] then [] else Insert(SortDesc(s[..|s| - 1]), s[|s| - 1])
  }

  /** The sorted listing is ordered by non-increasing context length ... */
  lemma {:induction false} SortDescSorted(s: seq<RawModel>)
    ensures SortedByContext(SortDesc(s))
  {
    if s != [] {
      SortDescSorted(s[..|s| - 1]);
      InsertSorted(SortDesc(s[..|s| - 1]), s[|s| - 1]);
    }
  }

  /** ... and is a permutation of the listing. */
  lemma {:induction false} SortDescPermutes(s: seq<RawModel>)
    ensures multiset(SortDesc(s)) == multiset(s)
  {
    if s != [] {
      var init, last := s[..|s| - 1], s[|s| - 1];
      SortDescPermutes(init);
      assert multiset(s) == multiset(init) + multiset{last} by {
        assert s == init + [last];
      }
      InsertPermutes(SortDesc(init), last);
    }
  }

  /** The entries of `s` with context length `k`, in their order in `s`. */
  function WithContext(s: seq<RawModel>, k: int): seq<RawModel>
  {
    if s == [] then []
    else if s[0].contextLength == k then [s[0]] + WithContext(s[1..], k)
    else WithContext(s[1..], k)
  }

  lemma {:induction false} WithContextConcat(a: seq<RawModel>, b: seq<RawModel>, k: int)
    ensures WithContext(a + b, k) == WithContext(a, k) + WithContext(b, k)
  {
    if a == [] {
      assert a + b == b;
    } else {
      WithContextConcat(a[1..], b, k);
      var ab := a + b;
      assert ab[0] == a[0] && ab[1..] == a[1..] + b;
      if a[0].contextLength == k {
        var x, y, z := [a[0]], WithContext(a[1..], k), WithContext(b, k);
        assert x + (y + z) == (x + y) + z;
      }
    }
  }

  lemma {:induction false} WithContextNone(s: seq<RawModel>, k: int)
    requires forall i :: 0 <= i < |s| ==> s[i].contextLength != k
    ensures WithContext(s, k) == []
  {
    if s != [] {
      WithContextNone(s[1..], k);
    }
  }

  lemma {:induction false} InsertStable(t: seq<RawModel>, x: RawModel, k: int)
    requires SortedByContext(t)
    ensures WithContext(Insert(t, x), k) == WithContext(t, k) + WithContext([x], k)
  {
    if t == [] || x.contextLength > t[0].contextLength {
      WithContextConcat([x], t, k);
      if k == x.contextLength {
        WithContextNone(t, k);
      } else {
        assert WithContext([x], k) == [];
      }
    } else {
      assert SortedByContext(t[1..]);
      InsertStable(t[1..], x, k);
      assert Insert(t, x) == [t[0]] + Insert(t[1..], x);
      WithContextConcat([t[0]], Insert(t[1..], x), k);
      WithContextConcat([t[0]], t[1..], k);
      assert t == [t[0]] + t[1..];
    }
  }

  /** The sort is stable: for every context length, the entries that have it
      come out in the order they came in. */
  lemma {:induction false} SortDescStable(s: seq<RawModel>, k: int)
    ensures WithContext(SortDesc(s), k) == WithContext(s, k)
  {
    if s != [] {
      var init, last := s[..|s| - 1], s[|s| - 1];
      SortDescStable(init, k);
      SortDescSorted(init);
      InsertStable(SortDesc(init), last, k);
      assert s == init + [last];
      WithContextConcat(init, [last], k);
    }
  }

  lemma {:induction false} InsertAfterAll(t: seq<RawModel>, x: RawModel)
    requires forall i :: 0 <= i < |t| ==> t[i].contextLength >= x.contextLength
    ensures Insert(t, x) == t + [x]
  {
    if t != [] {
      InsertAfterAll(t[1..], x);
      assert t == [t[0]] + t[1..];
    }
  }

  /** A listing already in order is left as it is. */
  lemma {:induction false} SortDescKeepsSorted(s: seq<RawModel>)
    requires SortedByContext(s)
    ensures SortDesc(s) == s
  {
    if s != [] {
      var init, last := s[..|s| - 1], s[|s| - 1];
      assert SortedByContext(init);
      SortDescKeepsSorted(init);
      assert SortDesc(s) == Insert(init, last);
      InsertAfterAll(init, last);
      assert s == init + [last];
    }
  }

  /** Where `Insert` puts `x` in a sorted `s`: after the `j` entries whose
      context length is at least its own, which keep their places, while the
      entries after them move up by one. */
  lemma {:induction false} InsertAt(s: seq<RawModel>, x: RawModel, j: nat)
    requires SortedByContext(s) && j <= |s|
    requires j == 0 || s[j - 1].contextLength >= x.contextLength
    requires forall k :: j <= k < |s| ==> s[k].contextLength < x.contextLength
    ensures forall k :: 0 <= k < j ==> Insert(s, x)[k] == s[k]
    ensures Insert(s, x)[j] == x
    ensures forall k :: j < k <= |s| ==> Insert(s, x)[k] == s[k - 1]
  {
    if j > 0 {
      assert s[0].contextLength >= x.contextLength;
      InsertAt(s[1..], x, j - 1);
      var t := Insert(s[1..], x);
      assert Insert(s, x) == [s[0]] + t;
      assert forall k :: 0 < k <= |s| ==> Insert(s, x)[k] == t[k - 1];
    }
  }

  /** The shifting loop of an insertion step: the entries of `a[..i]` with a
      context length below that of `x` move up by one place, leaving a gap at
      `j` where `x` belongs. */
  method ShiftSmallerUp(a: array<RawModel>, i: nat, x: RawModel) returns (j: nat)
    requires i < a.Length
    modifies a
    ensures j <= i
    ensures j == 0 || old(a[j - 1]).contextLength >= x.contextLength
    ensures forall k :: j <= k < i ==> old(a[k]).contextLength < x.contextLength
    ensures forall k :: 0 <= k < j ==> a[k] == old(a[k])
    ensures forall k :: j < k <= i ==> a[k] == old(a[k - 1])
    ensures forall k :: i < k < a.Length ==> a[k] == old(a[k])
  {
    ghost var s := a[..];
    j := i;
    while j > 0 && a[j - 1].contextLength < x.contextLength
      invariant 0 <= j <= i
      invariant forall k :: 0 <= k < j ==> a[k] == s[k]
      invariant forall k :: j < k <= i ==> a[k] == s[k - 1]
      invariant forall k :: i < k < a.Length ==> a[k] == s[k]
      invariant forall k :: j <= k < i ==> s[k].contextLength < x.contextLength
    {
      a[j] := a[j - 1];
      j := j - 1;
    }
  }

  /** One insertion step of the in-place sort: `a[i]` moves into the sorted
      prefix `a[..i]`, past the entries with a smaller context length. */
  method InsertIntoSortedPrefix(a: array<RawModel>, i: nat)
    requires i < a.Length && SortedByContext(a[..i])
    modifies a
    ensures a[..] == Insert(old(a[..i]), old(a[i])) + old(a[i + 1..])
  {
    ghost var s, rest := a[..i], a[i + 1..];
    var x := a[i];
    var j := ShiftSmallerUp(a, i, x);
    a[j] := x;
    InsertAt(s, x, j);
    ghost var r := Insert(s, x) + rest;
    forall k | 0 <= k < a.Length ensures a[k] == r[k] {
      if k > i {
        assert r[k] == rest[k - i - 1];
      }
    }
    assert a[..] == r;
  }

  /** Sorting one more entry of `s` inserts it into the sorted prefix. */
  lemma SortDescStep(s: seq<RawModel>, i: nat)
    requires i < |s|
    ensures SortedByContext(SortDesc(s[..i]))
    ensures SortDesc(s[..i + 1]) == Insert(SortDesc(s[..i]), s[i])
  {
    SortDescSorted(s[..i]);
    var next := s[..i + 1];
    assert next[..|next| - 1] == s[..i] && next[|next| - 1] == s[i];
  }

  /** `openRouterModels.sort(...)`, in place. */
  method SortByContextLength(a: array<RawModel>)
    modifies a
    ensures a[..] == SortDesc(old(a[..]))
  {
    ghost var s0 := a[..];
    var i := 0;
    while i < a.Length
      invariant 0 <= i <= a.Length
      invariant a[..] == SortDesc(s0[..i]) + s0[i..]
    {
      SortDescStep(s0, i);
      assert a[..i] == SortDesc(s0[..i]) && a[i] == s0[i] && a[i + 1..] == s0[i + 1..];
      InsertIntoSortedPrefix(a, i);
      i := i + 1;
    }
    assert s0[..a.Length] == s0;
  }

  // ---------------------------------------------------------------------------
  // The refresh

  /** What a successful refresh returns and stores. */
  function Normalize(raws: seq<RawModel>): seq<Model>
  {
    ToModels(SortDesc(raws))
  }

  /** A successful refresh returns one model per raw entry, ordered by
      non-increasing context window. */
  lemma NormalizeOrdered(raws: seq<RawModel>)
    ensures |Normalize(raws)| == |raws|
    ensures forall i, j :: 0 <= i < j < |raws| ==> Normalize(raws)[i].contextWindow >= Normalize(raws)[j].contextWindow
  {
    var sorted := SortDesc(raws);
    SortDescSorted(raws);
    forall i, j | 0 <= i < j < |raws|
      ensures Normalize(raws)[i].contextWindow >= Normalize(raws)[j].contextWindow
    {
      assert Normalize(raws)[i] == ToModel(sorted[i]) && Normalize(raws)[j] == ToModel(sorted[j]);
    }
  }

  /** A successful refresh keeps every entry: none dropped and none invented,
      and the result is a permutation of the entries converted in their listed
      order. */
  lemma NormalizeKeepsEveryEntry(raws: seq<RawModel>)
    ensures forall r :: r in raws ==> ToModel(r) in Normalize(raws)
    ensures forall m :: m in Normalize(raws) ==> exists r :: r in raws && m == ToModel(r)
    ensures multiset(Normalize(raws)) == multiset(ToModels(raws))
  {
    var sorted := SortDesc(raws);
    SortDescPermutes(raws);
    MapSeqMembers(ToModel, sorted);
    assert forall r :: r in raws <==> r in sorted by {
      forall r ensures r in raws <==> r in sorted {
        assert r in raws <==> r in multiset(raws);
        assert r in sorted <==> r in multiset(sorted);
      }
    }
    MapSeqPermutation(ToModel, sorted, raws);
  }

  /** After a successful refresh every stored model is an OpenRouter model:
      the provider query for `openrouter` returns the whole store and the one
      for any other id returns nothing. */
  lemma RefreshedCatalogIsOpenRouter(store: Catalog, raws: seq<RawModel>)
    requires store.models == Normalize(raws)
    ensures store.GetModelsByProvider("openrouter") == store.models
    ensures forall id :: id != "openrouter" ==> store.GetModelsByProvider(id) == []
  {
    var ms := store.models;
    forall i | 0 <= i < |ms| ensures ms[i].provider.id == "openrouter" {
      ToModelProvider(SortDesc(raws)[i]);
    }
    FilterAllOrNone(ms, (m: Model) => m.provider.id == "openrouter");
    forall id | id != "openrouter" ensures store.GetModelsByProvider(id) == [] {
      FilterAllOrNone(ms, (m: Model) => m.provider.id == id);
    }
  }

  /** `fetchAndUpdateModels`. `response` is what the HTTP request yielded
      (`None` when it failed). On failure the result is empty and the store
      keeps its previous contents; on success the store holds exactly the
      returned list. */
  method FetchAndUpdateModels(store: Catalog, response: Option<seq<RawModel>>) returns (modelList: seq<Model>)
    modifies store
    ensures response.None? ==> modelList == [] && store.models == old(store.models)
    ensures response.Some? ==> modelList == Normalize(response.value) && store.models == modelList
  {
    if response.None? {
      return [];
    }
    var sorted := SortedCopy(response.value);
    modelList := ToModels(sorted);
    store.UpdateModels(modelList);
  }

  /** The listing copied into a fresh array and sorted there in place. */
  method SortedCopy(raws: seq<RawModel>) returns (sorted: seq<RawModel>)
    ensures sorted == SortDesc(raws)
  {
    var openRouterModels := new RawModel[|raws|](i requires 0 <= i < |raws| => raws[i]);
    assert openRouterModels[..] == raws;
    SortByContextLength(openRouterModels);
    sorted := openRouterModels[..];
  }
}

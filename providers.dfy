/** The multi-provider content generator (`AIContentGenerator`): which
    providers are configured, which one is chosen, and how a failed call
    falls back to the other one. Provider calls are an oracle `respond`
    from a provider and a prompt to a reply or an exception message, and
    `parse` stands for `json.loads`. */
module Providers {
  import opened Wrappers
  import opened Text
  import opened Json
  import opened Models
  import opened Prompt
  import opened SidePrompts
  import opened Response

  const ClaudeModel := "claude-3-5-sonnet-20241022"
  const GeminiModel := "gemini-1.5-pro"

  const NoProviders := "No AI providers available"
  const AllFailed := "All AI providers failed. Last error: "

  datatype AIProvider = Claude | Gemini {
    /** The enumeration's string value. */
    function Value(): string {
      match this
      case Claude => "claude"
      case Gemini => "gemini"
    }

    /** The model each provider's generation call names. */
    function ModelName(): string {
      match this
      case Claude => ClaudeModel
      case Gemini => GeminiModel
    }
  }

  /** `AIProvider(value)`: the member whose value is `value`, if any (the
      constructor raises otherwise). */
  function ProviderNamed(value: string): (r: Option<AIProvider>)
    ensures r.Some? ==> r.value.Value() == value
    ensures r.None? ==> forall p: AIProvider :: p.Value() != value
  {
    if value == "claude" then Some(Claude)
    else if value == "gemini" then Some(Gemini)
    else None
  }

  /** The lists the constructor can build: each provider at most once,
      Claude before Gemini. */
  predicate ListedInOrder(ps: seq<AIProvider>) {
    ps == [] || ps == [Claude] || ps == [Gemini] || ps == [Claude, Gemini]
  }

  /** Such a list has at most two entries, no repetition, and whenever two
      are listed the first is Claude. */
  lemma ListedShape(ps: seq<AIProvider>)
    requires ListedInOrder(ps)
    ensures |ps| <= 2
    ensures forall i, j :: 0 <= i < j < |ps| ==> ps[i] == Claude && ps[j] == Gemini
  {
  }

  /** The first listed provider other than `primary`. */
  function FallbackFor(ps: seq<AIProvider>, primary: AIProvider): (r: Option<AIProvider>)
    ensures r.Some? ==> r.value != primary && r.value in ps
    ensures r.None? <==> forall i :: 0 <= i < |ps| ==> ps[i] == primary
  {
    if ps == [] then None
    else if ps[0] != primary then Some(ps[0])
    else
      assert forall i :: 1 <= i < |ps| ==> ps[i] == ps[1..][i - 1];
      FallbackFor(ps[1..], primary)
  }

  /** It is the first such entry: every entry before it is `primary`. */
  lemma {:induction false} FallbackIsFirst(ps: seq<AIProvider>, primary: AIProvider, k: nat)
    requires k < |ps| && ps[k] != primary
    requires forall j :: 0 <= j < k ==> ps[j] == primary
    ensures FallbackFor(ps, primary) == Some(ps[k])
    decreases k
  {
    if k > 0 {
      assert forall j :: 0 <= j < k - 1 ==> ps[1..][j] == ps[j + 1];
      FallbackIsFirst(ps[1..], primary, k - 1);
    }
  }

  /** The outcome of one `_generate_with_*` call: the result dict, or the
      message of the exception it lets through. */
  datatype Attempt = Returned(result: GenerationResult) | Raised(message: string)

  /** What `_generate_with_claude` / `_generate_with_gemini` do with a
      reply: the normalised content, the provider's name and model, the
      prompt and the token count; an exception from the call propagates. */
  function Attempted(p: AIProvider, prompt: string, ct: ContentType, respond: (AIProvider, string) -> ProviderReply,
                     parse: string -> Option<JsonValue>): Attempt
  {
    match respond(p, prompt)
    case Reply(text, tokens) =>
      Returned(Succeeded(ParseResponse(text, ct, parse), Some(p.Value()), p.ModelName(), prompt, tokens))
    case ProviderError(message) => Raised(message)
  }

  /** A call that returns reports the provider that answered and its model,
      and carries the prompt that was sent. */
  lemma AttemptReports(p: AIProvider, prompt: string, ct: ContentType, respond: (AIProvider, string) -> ProviderReply,
                       parse: string -> Option<JsonValue>)
    ensures Attempted(p, prompt, ct, respond, parse).Returned? <==> respond(p, prompt).Reply?
    ensures Attempted(p, prompt, ct, respond, parse).Returned? ==>
              var r := Attempted(p, prompt, ct, respond, parse).result;
              r.Succeeded? && r.provider == Some(p.Value()) && r.modelUsed == p.ModelName()
              && r.promptUsed == prompt && r.tokensUsed == respond(p, prompt).tokens
  {
  }

  class AIContentGenerator {
    /** The providers whose client was created, in the order tried by
        default. */
    var availableProviders: seq<AIProvider>

    predicate Valid()
      reads this
    {
      ListedInOrder(availableProviders)
    }

    /** `__init__`. A provider is listed when its key is truthy and its
        client starts; `claudeStarts` and `geminiStarts` stand for the SDK
        constructors not raising. `googleKey` is `None` when the settings
        have no such attribute. */
    constructor(anthropicKey: string, googleKey: Option<string>, claudeStarts: bool, geminiStarts: bool)
      ensures Valid()
      ensures Claude in availableProviders <==> anthropicKey != "" && claudeStarts
      ensures Gemini in availableProviders <==> Given(googleKey) && geminiStarts
    {
      availableProviders := [];
      if anthropicKey != "" && claudeStarts {
        availableProviders := availableProviders + [Claude];
      }
      if Given(googleKey) && geminiStarts {
        availableProviders := availableProviders + [Gemini];
      }
    }

    /** `_select_provider`: the preferred provider when it is available,
        otherwise Claude, otherwise Gemini, otherwise none. */
    function SelectProvider(preferred: Option<AIProvider>): (r: Option<AIProvider>)
      reads this
      ensures r.Some? ==> r.value in availableProviders
      ensures r.None? <==> availableProviders == []
      ensures preferred.Some? && preferred.value in availableProviders ==> r == preferred
      ensures (preferred.None? || preferred.value !in availableProviders) && Claude in availableProviders
              ==> r == Some(Claude)
    {
      SomeoneListed(availableProviders);
      if preferred.Some? && preferred.value in availableProviders then preferred
      else if Claude in availableProviders then Some(Claude)
      else if Gemini in availableProviders then Some(Gemini)
      else
        None
    }

    /** `_get_fallback_provider`: scans the list for the first provider
        other than `primary`. */
    method GetFallbackProvider(primary: AIProvider) returns (r: Option<AIProvider>)
      ensures r == FallbackFor(availableProviders, primary)
    {
      var i := 0;
      while i < |availableProviders|
        invariant 0 <= i <= |availableProviders|
        invariant FallbackFor(availableProviders, primary) == FallbackFor(availableProviders[i..], primary)
      {
        if availableProviders[i] != primary {
          return Some(availableProviders[i]);
        }
        assert availableProviders[i..][1..] == availableProviders[i + 1..];
        i := i + 1;
      }
      return None;
    }

    /** The promise of `generate_content` once its prompt is built.
        `calls` lists the providers invoked, in order. With no provider
        nothing is called; a primary that returns is the answer; after it
        raises, the fallback is tried once, and if that raises too the error
        names the primary's exception. */
    predicate Dispatches(prompt: string, ct: ContentType, preferred: Option<AIProvider>,
                         respond: (AIProvider, string) -> ProviderReply, parse: string -> Option<JsonValue>,
                         r: GenerationResult, calls: seq<AIProvider>)
      reads this
    {
      && (calls == [] <==> SelectProvider(preferred).None?)
      && (calls == [] ==> r == Failed(NoProviders))
      && (calls != [] ==> Some(calls[0]) == SelectProvider(preferred))
      && |calls| <= 2
      && (|calls| == 2 ==> Attempted(calls[0], prompt, ct, respond, parse).Raised?
                           && Some(calls[1]) == FallbackFor(availableProviders, calls[0]))
      && (|calls| == 1 ==> Attempted(calls[0], prompt, ct, respond, parse).Returned?
                           || FallbackFor(availableProviders, calls[0]).None?)
      && (r.Succeeded? ==> calls != [] && Attempted(calls[|calls| - 1], prompt, ct, respond, parse) == Returned(r))
      && (r.Failed? && calls != [] ==>
            (forall i :: 0 <= i < |calls| ==> Attempted(calls[i], prompt, ct, respond, parse).Raised?)
            && r.error == AllFailed + Attempted(calls[0], prompt, ct, respond, parse).message)
    }

    /** `generate_content` with the prompt built: the primary attempt, then
        at most one fallback attempt. */
    method Dispatch(prompt: string, ct: ContentType, preferred: Option<AIProvider>,
                    respond: (AIProvider, string) -> ProviderReply, parse: string -> Option<JsonValue>)
      returns (r: GenerationResult, calls: seq<AIProvider>)
      ensures Dispatches(prompt, ct, preferred, respond, parse, r, calls)
    {
      var provider := SelectProvider(preferred);
      if provider.None? {
        return Failed(NoProviders), [];
      }
      var primary := provider.value;
      calls := [primary];
      var first := Attempted(primary, prompt, ct, respond, parse);
      if first.Returned? {
        return first.result, calls;
      }
      var fallback := GetFallbackProvider(primary);
      if fallback.Some? {
        calls := calls + [fallback.value];
        var second := Attempted(fallback.value, prompt, ct, respond, parse);
        if second.Returned? {
          return second.result, calls;
        }
      }
      r := Failed(AllFailed + first.message);
    }

    /** `generate_content`. Each `_generate_with_*` call builds the same
        prompt from the same arguments; `prompt` is that prompt. */
    method GenerateContent(req: PromptRequest, preferred: Option<AIProvider>,
                           respond: (AIProvider, string) -> ProviderReply, parse: string -> Option<JsonValue>)
      returns (r: GenerationResult, calls: seq<AIProvider>, prompt: string)
      ensures prompt == PromptText(req)
      ensures Dispatches(prompt, req.contentType, preferred, respond, parse, r, calls)
    {
      prompt := BuildPrompt(req);
      r, calls := Dispatch(prompt, req.contentType, preferred, respond, parse);
    }

    /** `generate_image_prompt`: `None` when no provider is available, the
        stripped reply when the call returns, a plain description of the
        image when it raises. */
    method GenerateImagePrompt(brand: Brand, description: string, style: Option<Fields>, preferred: Option<AIProvider>,
                               respond: (AIProvider, string) -> ProviderReply)
      returns (r: Option<string>)
      ensures SelectProvider(preferred).None? ==> r.None?
      ensures SelectProvider(preferred).Some? ==>
                var reply := respond(SelectProvider(preferred).value, Join(ImagePromptLines(brand, description, style), "\n"));
                r == Some(if reply.Reply? then Strip(reply.text) else ImageFallback(brand.name, description))
    {
      var prompt := BuildImagePrompt(brand, description, style);
      var provider := SelectProvider(preferred);
      if provider.None? {
        return None;
      }
      match respond(provider.value, prompt)
      case Reply(text, _) => r := Some(Strip(text));
      case ProviderError(_) => r := Some(ImageFallback(brand.name, description));
    }

    /** `analyze_brand_consistency`: `None` when no provider is available,
        the normalised reply when the call returns, the error record with a
        zero score when it raises. */
    method AnalyzeBrandConsistency(brand: Brand, content: string, ct: ContentType, preferred: Option<AIProvider>,
                                   respond: (AIProvider, string) -> ProviderReply, parse: string -> Option<JsonValue>)
      returns (r: Option<JsonValue>, prompt: string)
      ensures prompt == AnalysisPrompt(brand, content)
      ensures SelectProvider(preferred).None? ==> r.None?
      ensures SelectProvider(preferred).Some? ==>
                var reply := respond(SelectProvider(preferred).value, prompt);
                r == Some(if reply.Reply? then ParseResponse(reply.text, ct, parse) else AnalysisError(reply.message))
    {
      prompt := AnalysisPrompt(brand, content);
      var provider := SelectProvider(preferred);
      if provider.None? {
        return None, prompt;
      }
      match respond(provider.value, prompt)
      case Reply(text, _) => r := Some(ParseResponse(text, ct, parse));
      case ProviderError(message) => r := Some(AnalysisError(message));
    }
  }

  /** A non-empty provider list names Claude or Gemini. */
  lemma SomeoneListed(ps: seq<AIProvider>)
    ensures ps != [] <==> Claude in ps || Gemini in ps
  {
    if ps != [] {
      assert ps[0] in ps;
      match ps[0]
      case Claude =>
      case Gemini =>
    }
  }

  /** The fallback never retries the provider that failed, and the two
      providers invoked are the two distinct configured ones. */
  lemma FallbackDiffers(ps: seq<AIProvider>, primary: AIProvider)
    requires ListedInOrder(ps) && primary in ps
    ensures FallbackFor(ps, primary).Some? <==> |ps| == 2
    ensures FallbackFor(ps, primary).Some? ==> {FallbackFor(ps, primary).value, primary} == {Claude, Gemini}
  {
  }
}

/** The single-provider generator (`ClaudeContentGenerator`). It builds the
    same prompts as the multi-provider generator and normalises replies the
    same way; it always calls Claude, and a raised exception becomes a
    failure record instead of a fallback. `respond` stands for the Claude
    client's messages call: the reply text and token count, or the message
    of the exception it raises. */
module Claude {
  import opened Wrappers
  import opened Text
  import opened Json
  import opened Models
  import opened Prompt
  import opened SidePrompts
  import opened Response
  import opened Providers

  class ClaudeContentGenerator {
    /** The model every call names, fixed by `__init__`. */
    const model: string := ClaudeModel

    /** `generate_content` once the prompt is built: one call, whose reply
        becomes a success record without a provider name, and whose
        exception becomes a failure record carrying its message. */
    method Send(prompt: string, ct: ContentType, respond: string -> ProviderReply, parse: string -> Option<JsonValue>)
      returns (r: GenerationResult)
      ensures r.Succeeded? <==> respond(prompt).Reply?
      ensures r.Succeeded? ==> r.content == ParseResponse(respond(prompt).text, ct, parse)
                               && r.provider.None? && r.modelUsed == model && r.promptUsed == prompt
                               && r.tokensUsed == respond(prompt).tokens
      ensures r.Failed? ==> r.error == respond(prompt).message
    {
      match respond(prompt)
      case Reply(text, tokens) =>
        r := Succeeded(ParseResponse(text, ct, parse), None, model, prompt, tokens);
      case ProviderError(message) =>
        r := Failed(message);
    }

    /** `generate_content`: the prompt is the one the multi-provider
        generator builds, and a successful answer is the one its Claude
        attempt returns, without the provider's name. */
    method GenerateContent(req: PromptRequest, respond: string -> ProviderReply, parse: string -> Option<JsonValue>)
      returns (r: GenerationResult, prompt: string)
      ensures prompt == PromptText(req)
      ensures r.Succeeded? <==> respond(prompt).Reply?
      ensures r.Succeeded? ==>
                Attempted(Claude, prompt, req.contentType, (p: AIProvider, s: string) => respond(s), parse)
                == Returned(r.(provider := Some(Claude.Value())))
      ensures r.Failed? ==> r.error == respond(prompt).message
    {
      prompt := BuildPrompt(req);
      r := Send(prompt, req.contentType, respond, parse);
    }

    /** `generate_image_prompt`: the stripped reply, or a plain description
        of the image when the call raises. */
    method GenerateImagePrompt(brand: Brand, description: string, style: Option<Fields>, respond: string -> ProviderReply)
      returns (r: string)
      ensures var reply := respond(Join(ImagePromptLines(brand, description, style), "\n"));
              r == if reply.Reply? then Strip(reply.text) else ImageFallback(brand.name, description)
    {
      var prompt := BuildImagePrompt(brand, description, style);
      match respond(prompt)
      case Reply(text, _) => r := Strip(text);
      case ProviderError(_) => r := ImageFallback(brand.name, description);
    }

    /** `analyze_brand_consistency`: the normalised reply, or the error
        record with a zero score when the call raises. */
    method AnalyzeBrandConsistency(brand: Brand, content: string, ct: ContentType,
                                   respond: string -> ProviderReply, parse: string -> Option<JsonValue>)
      returns (r: JsonValue, prompt: string)
      ensures prompt == AnalysisPrompt(brand, content)
      ensures respond(prompt).Reply? ==> r == ParseResponse(respond(prompt).text, ct, parse)
      ensures respond(prompt).ProviderError? ==> r == AnalysisError(respond(prompt).message)
    {
      prompt := AnalysisPrompt(brand, content);
      match respond(prompt)
      case Reply(text, _) => r := ParseResponse(text, ct, parse);
      case ProviderError(message) => r := AnalysisError(message);
    }
  }
}

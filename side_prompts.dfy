/** The two shorter prompts both generator services send: the image-prompt
    request and the brand-consistency analysis request, with the texts the
    services fall back to when the provider call raises. */
module SidePrompts {
  import opened Wrappers
  import opened Text
  import opened Json
  import opened Models
  import opened Prompt

  // ---------------------------------------------------------------------
  // Image prompt

  const ImageIntro := "Create a detailed image generation prompt for the following brand and content:"
  const ImageRequest := "Generate a detailed, specific prompt for AI image generation that will create a visual that perfectly represents the brand and content. "
                        + "Include style, composition, colors, mood, and technical specifications."

  /** Truthiness of a nullable text column. */
  predicate Given(s: Option<string>) {
    s.Some? && s.value != ""
  }

  /** A line shown only when `enabled`. */
  function LineIf(enabled: bool, line: string): seq<string> {
    if enabled then [line] else []
  }

  /** The lines of the image-prompt request: brand and content, then the
      imagery style, the colours and the caller's style preferences when
      each is truthy, then a blank line and the request itself. */
  function ImagePromptLines(brand: Brand, description: string, style: Option<Fields>): seq<string> {
    [ImageIntro, "Brand: " + brand.name, "Content: " + description]
    + LineIf(Given(brand.imageryStyle), "Brand imagery style: " + brand.imageryStyle.GetOr(""))
    + LineIf(Truthy(brand.colorPalette), "Brand colors: " + FormatColorPalette(brand.colorPalette))
    + LineIf(NonEmpty(style), "Style preferences: " + Str(JObject(style.GetOr([]))))
    + ["", ImageRequest]
  }

  /** Appends `line` when `enabled`, as each optional `extend` does. */
  method AddLine(lines: seq<string>, enabled: bool, line: string) returns (r: seq<string>)
    ensures r == lines + LineIf(enabled, line)
  {
    r := lines;
    if enabled {
      r := r + [line];
    }
  }

  /** Assembles the image-prompt request line by line and joins the lines
      with newlines. */
  method BuildImagePrompt(brand: Brand, description: string, style: Option<Fields>) returns (prompt: string)
    ensures prompt == Join(ImagePromptLines(brand, description, style), "\n")
    ensures EndsWith(prompt, ImageRequest)
  {
    var lines := [ImageIntro, "Brand: " + brand.name, "Content: " + description];
    lines := AddLine(lines, Given(brand.imageryStyle), "Brand imagery style: " + brand.imageryStyle.GetOr(""));
    lines := AddLine(lines, Truthy(brand.colorPalette), "Brand colors: " + FormatColorPalette(brand.colorPalette));
    lines := AddLine(lines, NonEmpty(style), "Style preferences: " + Str(JObject(style.GetOr([]))));
    lines := lines + ["", ImageRequest];
    prompt := Join(lines, "\n");
    JoinEndsWithLast(lines, "\n");
  }

  /** The request always names the brand and the content; it shows each
      optional line when its input is truthy, and has one line more than
      the five fixed ones per truthy input. */
  lemma ImagePromptShows(brand: Brand, description: string, style: Option<Fields>)
    ensures var lines := ImagePromptLines(brand, description, style);
            lines[0] == ImageIntro && lines[1] == "Brand: " + brand.name && lines[2] == "Content: " + description
            && |lines| == 5 + |LineIf(Given(brand.imageryStyle), "")| + |LineIf(Truthy(brand.colorPalette), "")|
                            + |LineIf(NonEmpty(style), "")|
    ensures Given(brand.imageryStyle)
            ==> "Brand imagery style: " + brand.imageryStyle.value in ImagePromptLines(brand, description, style)
    ensures Truthy(brand.colorPalette)
            ==> "Brand colors: " + FormatColorPalette(brand.colorPalette) in ImagePromptLines(brand, description, style)
    ensures NonEmpty(style)
            ==> "Style preferences: " + Str(JObject(style.value)) in ImagePromptLines(brand, description, style)
  {
  }

  /** The text returned when the provider call for the image prompt raises. */
  function ImageFallback(name: string, description: string): (r: string)
    ensures StartsWith(r, "Create an image for " + name)
    ensures EndsWith(r, description)
  {
    Affixes("Create an image for " + name + " showing ", description);
    Affixes("Create an image for " + name, " showing " + description);
    "Create an image for " + name + " showing " + description
  }

  // ---------------------------------------------------------------------
  // Brand-consistency analysis prompt

  const NotSpecified := "Not specified"

  const AnalysisTemplate :=
    "\n\n"
    + "Provide a detailed analysis in JSON format:\n"
    + "{\n"
    + "    \"overall_score\": 85,\n"
    + "    \"voice_alignment\": 90,\n"
    + "    \"values_alignment\": 80,\n"
    + "    \"guideline_compliance\": 85,\n"
    + "    \"strengths\": [\"Specific strength 1\", \"Specific strength 2\"],\n"
    + "    \"weaknesses\": [\"Specific weakness 1\", \"Specific weakness 2\"],\n"
    + "    \"suggestions\": [\"Specific improvement 1\", \"Specific improvement 2\"],\n"
    + "    \"brand_consistency\": \"high/medium/low\"\n"
    + "}\n"

  /** The brand values as the analysis shows them. */
  function ValuesText(brand: Brand): (r: string)
    ensures !Truthy(brand.brandValues) ==> r == NotSpecified
  {
    if Truthy(brand.brandValues) then FormatJsonList(brand.brandValues) else NotSpecified
  }

  /** The content guidelines as the analysis shows them. */
  function GuidelinesText(brand: Brand): (r: string)
    ensures !Truthy(brand.contentGuidelines) ==> r == NotSpecified
  {
    if Truthy(brand.contentGuidelines) then FormatMapping(brand.contentGuidelines) else NotSpecified
  }

  /** The brand facts the analysis is checked against, one per line. */
  function AnalysisHead(brand: Brand): string {
    "\nAnalyze the following content for brand consistency:\n\n"
    + "BRAND: " + brand.name
    + "\nBRAND VOICE: " + OrElse(brand.brandVoice, NotSpecified)
    + "\nBRAND VALUES: " + ValuesText(brand)
    + "\nCONTENT GUIDELINES: " + GuidelinesText(brand)
  }

  /** The analysis request: the brand facts, the content verbatim, and the
      JSON template of the expected answer. */
  function AnalysisPrompt(brand: Brand, content: string): string {
    AnalysisHead(brand) + "\n\nCONTENT TO ANALYZE:\n" + content + AnalysisTemplate
  }

  /** The request opens with the brand facts and the content, and closes
      with the template. */
  lemma AnalysisPromptShape(brand: Brand, content: string)
    ensures StartsWith(AnalysisPrompt(brand, content), AnalysisHead(brand) + "\n\nCONTENT TO ANALYZE:\n" + content)
    ensures EndsWith(AnalysisPrompt(brand, content), AnalysisTemplate)
  {
    Affixes(AnalysisHead(brand) + "\n\nCONTENT TO ANALYZE:\n" + content, AnalysisTemplate);
  }
}
